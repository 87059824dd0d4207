# Verified model of the grouper HALs

This project models three parts of the device tree for the ASUS grouper in Dafny 4.11 and proves
what they promise: the audio HAL's stream engine, the power HAL's timed-request scheduler with its
hint limiter, and the keymaster's key blobs and token protocol.
`dafny verify dfyconfig.toml` checks everything.

## How the model is built

| file | content |
|---|---|
| `AudioState.dfy` | device and streams as values; the state changes made under the locks |
| `AudioThreshold.dfy` | the sleep loop and the write-threshold controller |
| `AudioMachine.dfy` | every interleaving of the entry points, for any number of threads and streams |
| `AudioLocks.dfy` | lock ownership, deadlock freedom, progress |
| `AudioInvariant.dfy` | the state invariants with one output and one input stream |
| `AudioEntry.dfy` | the entry of a write or read as an uninterrupted run of the machine |
| `AudioHal.dfy` | the objects and methods, with the machine's invariant as theirs |
| `AudioPosition.dfy`, `AudioCapture.dfy` | presentation position; capture buffer in place |
| `PokeScheduler.dfy`, `PokeHandler.dfy` | the scheduler as a state machine, and as an object |
| `PowerHints.dfy`, `BoostCoverage.dfy` | the limiter alone; limiter and scheduler together |
| `HintSpacing.dfy`, `KindIndependence.dfy` | how far apart accepted hints are, with threads racing; kinds do not affect each other |
| `LateHints.dfy` | when a dropped hint is sure to be covered, exactly |
| `PowerHal.dfy` | the power HAL's object |
| `Handshake.dfy` | the barrier and its two uses |
| `InputScan.dfy` | the input device scan |
| `KeyBlob.dfy`, `KeyLifecycle.dfy`, `KeyToken.dfy` | blob codec; key lifecycle; token protocol and operations |

A protocol is a `Step` type, a predicate `Enabled`, a function `Apply` and a function `Run` over a
sequence of steps, so that a lemma about `Run(start, steps)` speaks about every run. What the kernel,
the token or the scheduler of threads decides is part of the steps or a parameter. Objects whose
methods change fields are classes. Each method makes the state change of the function that the state
machines use, and the object's `Valid()` is what the theorems are about: the audio device and its two
streams satisfy the machine's invariant; `PokeHandler`, `PowerHal` and `Token` are in a state that a run
of the scheduler, of limiter and scheduler together, or of the key lifecycle leads to.

## Assumptions

- Audio: one output and one input stream per device, as `audio_policy.conf` configures, for the state
  invariants; deadlock freedom has no such limit. `pcm_open` returns a PCM that is ready or not;
  resamplers and buffers can be allocated. A stream is not used after it is closed.
- A timestamp read that succeeds yields a fill level that is not negative; one that fails leaves the
  last value in place. If the first read fails, `kernel_frames` is never set (`audio/audio_hw.c:705-711`)
  and is taken as an arbitrary integer.
- A `pcm_write` that fails queues no frames; the kernel's buffer never holds more than its size.
- Power: fewer than 2^31 events are queued in one run; the looper delivers each message once and not
  early; `addFd` succeeds; `open` and `pipe` return descriptors that are not open. The monotonic clock
  starts above zero and stays below 2^63 microseconds. Hint numbers are those of `hardware/power.h`,
  which is not part of this model's sources.
- Keymaster: token handles are not zero and generated IDs are new. What each call of the token answers
  is a parameter of the operation.

## Where code and comments differ, and what is false

- `power/nvpowerhal.cpp:184-186` says that the interaction interval is slightly shorter than the boost.
  Both are 100 ms. Coverage holds all the same, also with the truncation to microseconds.
- Hints of one kind can be accepted closer together than the interval: `common_power_hint` takes no
  lock. Any two readings are both accepted if both decisions come before a record
  (`HintSpacing.RacingHintsAreBothAccepted`), or if the earlier reading is decided after the later one is
  on record, because the unsigned difference wraps (`HintSpacing.OvertakenHintIsAccepted`).
  `HintSpacing.SpacedExactlyWhen` says for every run exactly when all accepted hints are spaced,
  `HintSpacing.SafeExactlyWhen` says for every state exactly when future hints will be.
- A dropped hint need not be covered by a boost. `check_hint` compares after it has read the clock, so a
  hint can be turned away for a boost that has timed out and been closed meanwhile
  (`LateHints.LateDropIsUncovered`, for any two readings closer than the interval); and an accepted VSYNC
  hint without data boosts nothing (`BoostCoverage.VsyncWithoutDataBoostsNothing`).
  `LateHints.CoveredExactlyWhen` gives the exact condition.
- `read_frames` has a branch without resampler (`audio/audio_hw.c:480-494`), but `in_read` calls it only
  with one. The branch is modelled and proved.
- The write threshold can leave [640, 4096]: if no timestamp read of a write at its target succeeds and
  `kernel_frames` happens to be negative (`AudioEntry.UnsetFillLeavesRange` is such a run).
  `AudioInvariant.ThresholdInRangeExactlyWhen` gives the exact condition over runs.
- `out_get_presentation_position` does not ask whether the stream is open. In standby it acts on a null
  PCM (`AudioInvariant.QueryWithoutPcm`) or, after a failed open, on a closed one
  (`AudioEntry.QueryOnClosedPcm`); `AudioInvariant.QueryFindsPcmExactlyWhen` gives the exact condition.
- A stereo read of more than one period runs past the capture buffer, which holds one
  (`AudioCapture.OverrunningRead`; exactly when: `AudioCapture.ReadStaysInsideExactlyWhen`).
- Delete and import are not atomic. A failed delete has changed something exactly if the token destroyed
  the private object and refused the public one, a failed import exactly if the public object was created
  and the conversion or the private object failed (contracts of `KeyToken.Token.DeleteKeypair` and
  `ImportKeypair`; `KeyToken.HalfDelete` and `KeyToken.HalfImport` are such calls for every ID). What is
  left behind stays for good: `KeyLifecycle.OrphansStay`.

## Model

| member | source | states |
|---|---|---|
| AudioLocks.NoDeadlock | audio/audio_hw.c:182-186 | In every state that any run of any number of threads and streams reaches, a chain of waiting threads has at most three members, all different: the waits-for relation has no cycle |
| AudioLocks.WaitingDiscipline | audio/audio_hw.c:542-546 | A thread waiting for the device lock holds nothing; one waiting for a stream lock holds the device lock or nothing; none waits for a lock it holds |
| AudioLocks.Progress | audio/audio_hw.c:643-656 | Whenever a thread is inside an entry point, some thread inside one can take a step |
| AudioLocks.StepsRunOut | audio/audio_hw.c:757-768 | Every step brings its thread closer to the end and moves no other: each entry point ends after at most eleven of its steps |
| AudioLocks.RunKeepsLocks | audio/audio_hw.c:295-304 | Along every run the owner of each lock is exactly the thread whose program point holds it, so an idle thread has released all it took |
| AudioInvariant.FreeDeviceIsConsistent | audio/audio_hw.c:288-304 | Whenever the device lock is free, each stream is out of standby exactly when it is the active one, and two open streams have different PCMs in one group of rates |
| AudioInvariant.OpenStreamsMatchRouting | audio/audio_hw.c:279-286 | A stream out of standby has an open PCM, the SCO one exactly when its routing has SCO bits, and a resampler exactly when the rates differ; with the device lock free no other PCM is open |
| AudioInvariant.TransferActsOnOpenPcm | audio/audio_hw.c:653-660 | During a transfer without the device lock the stream is still open and active, and its configuration agrees with the SCO flag read before, which is still the routing's |
| AudioInvariant.ThresholdInRangeExactlyWhen | audio/audio_hw.c:658-754 | Over every interleaving the target is 1024 or 4096 as the type says and the threshold lies in [640, 4096] at all times, if and only if every write had a fill level that is not negative or was off its target |
| AudioInvariant.QueryFindsPcmExactlyWhen | audio/audio_hw.c:806-809 | A position query finds the stream's own open PCM exactly when the stream is not in standby |
| AudioInvariant.QueryWithoutPcm | audio/audio_hw.c:808-809 | A run in which the query acts on no PCM |
| AudioInvariant.RunKeepsInv | audio/audio_hw.c:356-372 | Every run of starts, failed starts, standby and re-routing keeps the whole invariant |
| AudioInvariant.ActivityLostExactlyWhen | audio/audio_hw.c:295-304 | Over every interleaving an active stream stops being active exactly by its own standby, by its own re-routing that changes the SCO bits, or by the start of the other stream while one of them is routed to SCO and the other not; a stream of a compatible rate stays open |
| AudioInvariant.ThresholdMovesInSmallSteps | audio/audio_hw.c:732-754 | Over every interleaving the threshold of a stream that has a buffer type moves by at most 128 in a step, unless a write finds it at its target with fewer than 3072 frames queued; only a non-SCO write moves it |
| AudioState.ConflictIsOtherGroup | audio/audio_hw.c:288-300 | For the seven listed rates, the test finds a conflict exactly for rates of different groups |
| AudioEntry.EntryIsRun | audio/audio_hw.c:643-656 | The entry of a write or read, with start, conflict and failure branches, is an uninterrupted run of the machine that ends with the stream lock alone and the state of `Entered` |
| AudioEntry.WriteEntryRuns | audio/audio_hw.c:643-656 | From every machine state at the entry, such a run leads to the device and streams that `EnterWrite` promises |
| AudioEntry.ReadEntryRuns | audio/audio_hw.c:951-958 | The same for `EnterRead` |
| AudioEntry.UnsetFillLeavesRange | audio/audio_hw.c:705-711 | For every negative value of the unset variable, a run whose first write with the screen off leaves the threshold out of range; 128 for -1 |
| AudioEntry.QueryOnClosedPcm | audio/audio_hw.c:308-312 | A run in which a failed open leaves a closed PCM and the position query acts on it |
| AudioHal.AudioDevice.DoOutStandby | audio/audio_hw.c:225-243 | The stream ends in standby and inactive with its PCM closed, the other stream is untouched, and device and streams stay consistent |
| AudioHal.AudioDevice.DoInStandby | audio/audio_hw.c:246-264 | The same for input; the frame count stays |
| AudioHal.AudioDevice.StartOutputStream | audio/audio_hw.c:267-334 | Device, stream and active input stream after the call are those of `StartOut`; success exactly when the PCM is ready; the invariant is kept but for the mark its caller clears |
| AudioHal.AudioDevice.StartInputStream | audio/audio_hw.c:337-405 | The same for input with `StartIn`; on success a new capture session begins with no frames, on failure frame count and session stay |
| AudioHal.AudioDevice.OutRoute | audio/audio_hw.c:570-587 | The mask is stored unless it is empty; the stream is put into standby exactly if the SCO bits change, and otherwise left alone; device and streams stay consistent |
| AudioHal.AudioDevice.InRoute | audio/audio_hw.c:902-919 | The same for input |
| AudioHal.AudioDevice.EnterRead | audio/audio_hw.c:951-958 | The mirror image for input; a stream that starts begins a new, empty capture session, otherwise frame count and session stay |
| AudioHal.StreamReleasesPrefix | audio/audio_hw.c:453-465 | In the latest session of every stream the released frames are a prefix of those read, and the stream counts the rest |
| AudioHal.StreamIn.GetNextBuffer | audio/audio_hw.c:407-451 | The stream's own session hands out the head of the pending frames, after reading a period when none is left |
| AudioHal.StreamIn.ReleaseBuffer | audio/audio_hw.c:453-465 | The stream's own session releases exactly the first frames |
| AudioHal.OpenDevice | audio/audio_hw.c:1268-1306 | A new device with two new streams is consistent |
| AudioHal.AudioDevice.EnterWrite | audio/audio_hw.c:643-656 | On success the stream is out of standby on an open PCM of the configuration its routing calls for, with a resampler exactly when rates differ; the capture stream is closed exactly if the output stream starts in another rate group, and is otherwise untouched; buffer type, SCO flag and both streams' new state are given field by field; a run of the machine leads to it |
| AudioHal.StreamOut.Transfer | audio/audio_hw.c:658-765 | Unless routed to SCO the buffer type becomes the wanted one and the threshold of a stream that had one moves by at most 128, unless it was at the target with more than 1024 frames missing; frames count only if the write succeeded |
| AudioHal.AudioDevice.TransferOut | audio/audio_hw.c:757-765 | The transfer keeps device and streams consistent and counts the frames written |
| AudioHal.StreamOut.constructor | audio/audio_hw.c:1021-1065 | A new output stream is in standby with no configuration |
| AudioHal.StreamIn.constructor | audio/audio_hw.c:1226-1235 | A new input stream is in standby; low latency exactly for the fast flag at 44100 Hz |
| AudioHal.StreamOut.ChangeType | audio/audio_hw.c:660-673 | The target becomes eight or two periods when the type changes; the threshold jumps to it only if the stream had no type, and is otherwise kept |
| AudioHal.StreamOut.StepThreshold | audio/audio_hw.c:739-754 | The threshold after the controller step is `Adjust` of the one before |
| AudioHal.StreamOut.AdaptThreshold | audio/audio_hw.c:658-755 | The loop sleeps against the threshold kept from before, with its bounds and exits; the fill level is the latest reading or the unset variable; from there the threshold moves by 128 or to the target, or is reset above the fill level; in range exactly if the fill level is not negative or the threshold is off target |
| AudioHal.StreamOut.GetPresentationPosition | audio/audio_hw.c:800-823 | The answer is frames written minus buffer size plus free space, refused when negative; none without a timestamp |
| AudioThreshold.SleepLoop | audio/audio_hw.c:705-730 | For every sequence of readings: at most 12 sleeps, none negative, sum at most MAX_WRITE_SLEEP_US; each sleep but a clipped last one is what its reading asks for; the loop ends for one of the four reasons, the budget being spent exactly |
| AudioThreshold.Throttle | audio/audio_hw.c:714-718 | The same with the drain time of the output PCM |
| AudioThreshold.NoOverflow | audio/audio_hw.c:715-721 | For fill levels of the kernel buffer the 32-bit total does not overflow |
| AudioThreshold.WriteMeans | audio/audio_hw.c:660-754 | One non-SCO write field by field: target of the type, threshold kept or set to it, a step of 128 or to the target, or the reset |
| AudioThreshold.ThrottledIsControlled | audio/audio_hw.c:658-754 | A non-SCO write leaves target and threshold in range exactly if the fill level is not negative or the threshold is off target, and changes no other field |
| AudioThreshold.DepletionReset | audio/audio_hw.c:749-754 | At the target the threshold moves exactly in long mode with less than 3072 frames queued, and lands above the fill level |
| AudioThreshold.Approach | audio/audio_hw.c:739-748 | Off the target every write moves a full step or to the target, never past it, whatever the fill level |
| AudioThreshold.ReachesTarget | audio/audio_hw.c:732-748 | With a fixed target it is reached after exactly ceil(distance/128) writes and not before, at most 27 |
| AudioPosition.ComputePosition | audio/audio_hw.c:808-818 | For every answer of the kernel the unsigned 64-bit expression read as signed is exactly written minus size plus free space, refused exactly when that is negative or needs 2^63, until the sum itself exceeds 64 bits |
| AudioPosition.FramesConserved | audio/audio_hw.c:757-765 | Over every interleaving of the machine with playback, each frame in the stream's own count is queued in the kernel or gone; out of standby the PCM is open |
| AudioPosition.PositionCountsGoneFrames | audio/audio_hw.c:131 | A query computed from the stream's count and its PCM's free space is answered with the number of frames that left the buffer |
| AudioPosition.PositionNeverDecreases | audio/audio_hw.c:806-818 | Over every such run the reported position never decreases, across failed writes and standby/restart cycles |
| AudioCapture.DropRightChannel | audio/audio_hw.c:436-442 | In place, sample k becomes the original sample 2k for every frame count and the rest of the buffer stays |
| AudioCapture.ReadStereo | audio/audio_hw.c:967-979 | For every request, within the buffer or past it: memory holds twice as many samples as frames requested, and the caller's buffer their left channel |
| AudioCapture.CopyLeftChannel | audio/audio_hw.c:977-979 | The target holds the left channel of the samples at the source |
| AudioCapture.ReadStaysInsideExactlyWhen | audio/audio_hw.c:397-399 | A stereo read leaves all memory outside the one-period buffer alone, whatever is captured, if and only if it requests at most a period |
| AudioCapture.OverrunningRead | audio/audio_hw.c:972-979 | For every larger request, samples that overwrite the cell behind the buffer |
| AudioCapture.ReleasedIsPrefix | audio/audio_hw.c:407-465 | For every sequence of gets and partial releases the released frames are a prefix of all frames read and, with the pending ones, all of them |
| AudioCapture.BufferReleasesPrefix | audio/audio_hw.c:453-465 | The same of every capture buffer after any calls |
| AudioCapture.CaptureBuffer.constructor | audio/audio_hw.c:397-400 | A session starts with no frames |
| AudioCapture.CaptureBuffer.GetNextBuffer | audio/audio_hw.c:407-451 | The queue view changes as specified and the slice handed out is the head of the pending frames, non-empty on success; errors hand out nothing |
| AudioCapture.CaptureBuffer.ReleaseBuffer | audio/audio_hw.c:453-465 | Exactly the first frames of the queue are released |
| AudioCapture.CaptureBuffer.ReadFrames | audio/audio_hw.c:469-503 | Terminates; the caller gets exactly the requested frames in order, or the status of the first read that is not zero, or -ENODEV if the PCM is closed, and what was read is accounted for |
| PokeScheduler.EachEventRunsOnce | power/timeoutpoker.cpp:167-191 | Under every interleaving, senders between delivery and lookup included, each event is delivered at most once, exactly once when its message left the looper; every lookup finds its event |
| PokeScheduler.RunKeepsEvents | power/timeoutpoker.cpp:203-217 | Pending messages and queued events are in bijection by key, but for the one message just taken; each key is queued, with the worker or deleted, never two of these |
| PokeScheduler.DescriptorsConserved | power/timeoutpoker.cpp:219-245 | Under every interleaving no descriptor is closed twice, early or unopened, and the open ones are exactly those of queued timeouts, callbacks and the worker's hand, all distinct |
| PokeScheduler.CloseAnswersOpen | power/timeoutpoker.cpp:272-285 | In such a history each close answers one opening of the same descriptor, not before its time |
| PokeScheduler.RequestsServed | power/timeoutpoker.cpp:110-117 | Until its time is over a timed request is queued, being opened, held open, or its node failed to open |
| PokeHandler.PokeHandler.SendEventDelayed | power/timeoutpoker.cpp:167-174 | Queue, messages and keys grow by one event |
| PokeHandler.PokeHandler.PushEvent | power/timeoutpoker.cpp:27-30 | The event is queued under a key never used before; the history stays a run of the scheduler |
| PokeHandler.PokeHandler.PushHandle | power/timeoutpoker.cpp:98-108 | The request is queued under a key never used before and carries its caller's own result and barrier |
| PokeHandler.PokeHandler.RemoveEventByKey | power/timeoutpoker.cpp:176-186 | The event returned and removed is the one sent under the key, never null |
| PokeHandler.PokeHandler.OpenPmQosTimed | power/timeoutpoker.cpp:219-228 | A node that opens gets a timeout event queued for its time; one that does not leaves nothing behind; the history stays a run |
| PokeHandler.PokeHandler.CreateHandleForPmQosRequest | power/timeoutpoker.cpp:78-86 | The client end of the pipe exactly if open and pipe succeed, with its server end registered for the descriptor; otherwise -1 and no callback |
| PokeHandler.PokeHandler.CreateHandleForFd | power/timeoutpoker.cpp:32-51 | The pipe's client end, or -1 with the descriptor closed |
| PokeHandler.PokeHandler.RunEvent | power/timeoutpoker.h:151-158 | The open descriptors change exactly as the event asks; a handle request stores the client end of the pipe, or -1, through the pointer it carries and opens the barrier it carries, no other caller's is touched; the server end is registered for the descriptor opened |
| PokeHandler.PokeHandler.HandleMessage | power/timeoutpoker.cpp:203-217 | The event sent under the message's key is run and deleted, with the outcome it promises for the open descriptors; a handle request has answered the caller that pushed it with the client end, which is no server end and no held descriptor, or -1 |
| PokeHandler.HandlerIsSound | power/timeoutpoker.cpp:219-245 | Every handler, after any calls, has events and messages in bijection, every open descriptor owned once and every timed request alive until its time; every handle a caller holds belongs to a registered server end and is itself neither a server end nor a held descriptor |
| PokeHandler.PokeHandler.PipeCloseCb | power/timeoutpoker.cpp:272-285 | A hang-up closes exactly the pipe's descriptor and forgets the callback; other events change nothing |
| PowerHints.AcceptedAreSpaced | power/nvpowerhal.cpp:80-100 | Among calls made one after another, two accepted hints of a kind with an interval are at least the interval apart |
| KindIndependence.KindsAreIndependent | power/nvpowerhal.cpp:80-100 | Over every run of any number of threads, the moves of one kind alone, with the clock, are a run too, and it agrees on that kind's recorded time, threads and accepted hints |
| KindIndependence.OtherKindsChangeNothing | power/nvpowerhal.cpp:264-316 | A move of another kind changes neither the recorded time nor the position or decision of any thread inside a hint of this kind |
| PowerHal.PowerHal.constructor | power/nvpowerhal.cpp:182-189 | Intervals of 100 ms for VSYNC and INTERACTION, 2 s for LAUNCH, none otherwise; no hint is recorded |
| PowerHal.PowerHal.CheckHint | power/nvpowerhal.cpp:80-100 | For the clock as it is, accepted exactly for a known number that is not within the interval of the recorded time, which is the one the system records |
| PowerHal.PowerHal.CommonPowerHint | power/nvpowerhal.cpp:264-316 | A hint passes exactly if none of its number is recorded or the interval is over; it records its time and sends exactly a frequency floor and two or four CPUs for 100 ms or 2 s, or nothing; one turned away changes nothing and is boosted, for VSYNC exactly if the accepted hint carried data |
| PowerHal.HalHintsAreSpaced | power/nvpowerhal.cpp:80-100 | In every object, whatever its scheduler did between the calls, the accepted hints of a kind are pairwise an interval apart |
| BoostCoverage.DroppedHintIsCovered | power/nvpowerhal.cpp:80-100 | With any number of threads giving hints: a dropped hint follows an accepted one whose interval contains it, all of whose requests were pushed and are alive until the interval is over |
| BoostCoverage.BoostedExactlyWhen | power/nvpowerhal.cpp:275-305 | A dropped hint that is decided before the recorded boost's interval is over is covered by the frequency floor and the CPU count it would have asked for itself, for INTERACTION and LAUNCH always, for VSYNC exactly when the accepted hint carried data |
| LateHints.CoveredExactlyWhen | power/nvpowerhal.cpp:80-100 | However threads and worker are scheduled, a dropped hint is covered by two live requests, if and only if it is decided before the accepted hint's interval is over and, for VSYNC, that hint carried data |
| LateHints.LateDropIsUncovered | power/nvpowerhal.cpp:90-95 | For any two readings closer than the interval and any later decision, a run in which the hint is dropped when both requests of its boost are closed |
| BoostCoverage.VsyncWithoutDataBoostsNothing | power/nvpowerhal.cpp:276-286 | A run in which a dropped VSYNC hint is covered by nothing |
| HintSpacing.AcceptedExactlyWhen | power/nvpowerhal.cpp:93-95 | In every reachable state a hint of a known kind is accepted exactly if the kind has no interval, or none is recorded, or it read the clock before the recorded time or at least the interval after it |
| HintSpacing.SpacedExactlyWhen | power/nvpowerhal.cpp:272-315 | Over every run of any number of threads all accepted hints of a kind are pairwise an interval apart if and only if each was decided with a reading not before the record, the record being the latest accepted hint unless its interval was over |
| HintSpacing.SafeExactlyWhen | power/nvpowerhal.cpp:93-97 | In every reachable state the hints still to come are spaced from all accepted ones exactly if the latest accepted one is on record or its interval is over |
| HintSpacing.OrderedHintsAreSpaced | power/nvpowerhal.cpp:272-315 | Hints are spaced if each is accepted after the earlier accepted ones are recorded, with a reading not before the record; dropped hints may overlap |
| HintSpacing.SerialHintsAreSpaced | power/nvpowerhal.cpp:264-316 | With at most one thread at a time inside a hint of the kind, all accepted ones are spaced |
| HintSpacing.RacingHintsAreBothAccepted | power/nvpowerhal.cpp:272-315 | For any two readings, a run that accepts both before either is recorded |
| HintSpacing.OvertakenHintIsAccepted | power/nvpowerhal.cpp:93-95 | For any two readings, a run that accepts the earlier one while the later is on record: the difference wraps |
| Handshake.CallsGetTheirAnswer | power/timeoutpoker.cpp:98-108 | With concurrent callers, a call that returned got the worker's own answer to it and the worker has left its barrier |
| Handshake.AnsweredCallsMoveOn | power/timeoutpoker.h:151-158 | No wake-up is lost: a call whose answer is complete is not blocked, can move, and gets closer to returning |
| Handshake.OpenBarrierLetsPass | power/barrier.h:42-47 | Once the opener is gone a waiter is never blocked and each of its steps leads it out |
| Handshake.StepsKeepBarrier | power/barrier.h:33-37 | Waiting and opening keep mutual exclusion, and nobody gets through before the opener has let go |
| Handshake.LooperBeforeMessages | power/timeoutpoker.cpp:247-254 | The looper is set before any event is sent; the ready barrier stays open for both waits |
| InputScan.FindInputDeviceIds | power/nvpowerhal.cpp:44-78 | Every unset ID becomes the smallest index whose name is equal, up to 32 characters, or stays -1, although the scan may stop early; known IDs stay |
| InputScan.SecondScanChangesNothing | power/nvpowerhal.cpp:60-76 | From unset the result is the smallest match or -1, and a second scan changes nothing |
| KeyBlob.Save | keymaster/keymaster_grouper.cpp:250-267 | The blob is the version, big-endian, followed by the ID |
| KeyBlob.Restore | keymaster/keymaster_grouper.cpp:302-327 | The ID is bytes 4 to 35 exactly for blobs long enough and of version 1; otherwise refused |
| KeyBlob.RoundTrip | keymaster/keymaster_grouper.cpp:326-327 | Restoring a saved blob, with or without bytes appended, searches for exactly the saved ID |
| KeyBlob.SameKeySamePrefix | keymaster/keymaster_grouper.cpp:309-327 | Two accepted blobs name one key exactly when their first 36 bytes agree |
| KeyBlob.EncodeExponent | keymaster/keymaster_grouper.cpp:356-361 | The eight bytes stand for the exponent, most significant first, for every 64-bit value |
| KeyToken.HandleBalance | keymaster/keymaster_grouper.cpp:164-174 | In a trace that keeps the rules every handle is closed as often as handed out, but for live ones |
| KeyToken.SessionBalance | keymaster/keymaster_grouper.cpp:119-143 | Every subsession opened is closed and every search ended, but for the current one |
| KeyToken.RulesMean | keymaster/keymaster_grouper.cpp:137-174 | In a trace that keeps the rules: when a subsession is closed, every handle has been closed as often as handed out and every search ended; no search starts while one is active; no handle is closed without being handed out |
| KeyToken.TokenKeepsRules | keymaster/keymaster_grouper.cpp:117-187 | Every token, after any operations, has kept these rules and balances handles, searches and subsessions |
| KeyToken.Token.FindSingleObject | keymaster/keymaster_grouper.cpp:269-300 | For all return codes the search is ended; a handle is returned exactly if both calls succeed and an object of that ID and class exists, and it names such an object |
| KeyToken.Token.KeyblobRestore | keymaster/keymaster_grouper.cpp:302-328 | Success exactly if the blob resolves and both searches are answered; then both handles name its pair |
| KeyToken.Token.DeleteKeypair | keymaster/keymaster_grouper.cpp:725-752 | For all return codes the protocol ends quiet; success exactly if the pair is found and both objects are destroyed; a failed call has changed something exactly if the private object was destroyed and the public one refused; other keys keep resolving |
| KeyToken.Token.UseKeypair | keymaster/keymaster_grouper.cpp:768-775 | For all return codes the protocol ends quiet; success exactly if the pair is found and every further call succeeds |
| KeyToken.Token.ImportKeypair | keymaster/keymaster_grouper.cpp:477-611 | For all return codes the protocol ends quiet; success adds the pair and returns its blob; a failed call leaves the public object exactly if it was created and the conversion or the private object failed; other keys keep resolving |
| KeyToken.Token.GenerateKeypair | keymaster/keymaster_grouper.cpp:385-406 | For all return codes the protocol ends quiet; success adds the pair and returns its blob, failure changes nothing; other keys keep resolving |
| KeyToken.TokenKeepsKeys | keymaster/keymaster_grouper.cpp:330-407 | In every token, after any operations, a key generated or imported and not deleted since resolves to its own pair and no other |
| KeyToken.TokenForgetsKeys | keymaster/keymaster_grouper.cpp:737-749 | In every token a blob whose key was deleted, completely or by half, no longer resolves |
| KeyToken.HalfDelete | keymaster/keymaster_grouper.cpp:737-749 | For every ID, a delete that fails and yet loses the key: the public object stays and a second delete fails too |
| KeyToken.HalfImport | keymaster/keymaster_grouper.cpp:477-605 | For every ID, an import that fails and leaves its public object |
| KeyLifecycle.KeyKeepsResolving | keymaster/keymaster_grouper.cpp:330-407 | Over every sequence of operations a key resolves to its own pair and no other until it is deleted |
| KeyLifecycle.DeletedStaysDeleted | keymaster/keymaster_grouper.cpp:737-749 | After a delete, complete or half, no blob with that ID resolves again |
| KeyLifecycle.OthersUnaffected | keymaster/keymaster_grouper.cpp:597-610 | An operation leaves every blob of another key resolving as before |
| KeyLifecycle.OrphansStay | keymaster/keymaster_grouper.cpp:745-749 | What a half-done import or delete leaves stays for good: its public object remains, without a private one |

## Left out

- Mixer routing, parameter strings, function tables and get/set stubs of the audio HAL: no state of their own.
- Resampler and tinyalsa internals: the resampler only appears as existing or not, and as an arbitrary sequence of gets and releases.
- The capture buffer inside the interleaving machine: `In` keeps its frame count there; its contents are modelled in `AudioCapture`, under the stream lock its callers hold.
- The sleep after a failed read or write and the silence for a muted microphone: no property depends on them.
- The overflow of `write_threshold - kernel_frames` for a `kernel_frames` that was never set and is near the smallest 32-bit integer.
- Device masks are split into SCO bits and other bits instead of 32-bit words; the bitwise tests become tests on the parts.
- The dead error branch of `createHandleForFd` and a failing `addFd`: the source ignores the result.
- Key wrap-around after 2^31 events.
- Barrier.close: it is never called.
- PM QoS command text, property, sysfs and frequency-file reading; the requests that `common_power_open` and the interactive switch push.
- OpenSSL conversions, RSA operations, random IDs, and `C_Finalize` after a failed subsession.
- liblights, NFC firmware, OMX, GPS, healthd and dumpstate: tables or thin wrappers.
