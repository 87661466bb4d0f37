# stemd: a verified model

stemd separates a music track into stems on one machine: a queue with a single worker runs a
model over overlapping segments of the track, the stems go into a bounded cache keyed by
everything that decides their bytes, and a player rebuilds the missing part by subtraction.

This project models five groups of its code in Dafny and proves what they promise.

- **Queue** (`QueueShared`, `QueueObject`, `QueueProtocol`, `QueueInvariant`, `QueueTheorems`,
  `QueueRuns`, `QueueOutcomes`, `QueueStops`, `QueueMeasure`). The shared object with its fields
  updated in place; its critical sections interleaved with a program counter per thread, an owner per
  lock and a parked state for the worker that only a notify ends; an inductive invariant; theorems
  over every run, those of `QueueOutcomes` read off the run's actions; and a measure that brings
  every call to an end.
- **Jobs** (`Progress`, `JobRegistry`, `JobStore`). The two-way index as a value with what every sequence of
  operations keeps, and the classes that update it in place.
- **Signal** (`OverlapAdd`, `Stft`, `Spectral`, `OverTrack`, `Mode1`, `Stems`). Overlap-add by
  groups, the transforms around it, segmented application, the polyphase converter, and the
  arithmetic of parts. Samples are exact reals.
- **Cache** (`CachePolicy`, `Cache`, `CacheProtocol`, `CacheKey`, `Identity`, `ModelKey`, `Text`).
  Eviction as values and as a class, tombstones under interleaving, the two texts that identify an
  entry, and the two together.
- **Shapes** (`Tensors`, `Layout`, `Channels`, `Bands`, `UNet`). Row-major index maps, the RoFormer's
  and demucs's layouts, the band table, and the U-Net's stacks of shapes.

`Arith`, `Sums` and `Wrappers` hold what the others share. `dafny verify dfyconfig.toml` checks
everything.

## How to read it

The queue's steps are critical sections: an action is one lock acquisition, or what a thread does
between two. History fields record what happened and are never consulted, except that a job is
submitted once, by whoever claimed its key. `Init` is the state once the first model has loaded.
The temporaries in `if let Some(..) = lock().take()` keep their guard for the whole body, so a stop
answers a staged switch while still holding `incoming`. A separator reports a cancellation only
after reading its own flag as set, and the grace period of a stop may run out at any step.

A job's card is what a client reads of it: its stage, and whether an entry, a result and an error are
attached. Each write of `publish`, `complete`, `cancelled` and `fail` is a step of its own, the worker
can panic before any of them and after the last, and the handler of a panic fails the job in two more
steps. A separator may report any stage that is not terminal, as often as it likes; such a report is
the one action that the measure does not count.

In the cache protocol an entry is `disturbed` when another entry of its key was staged while it was
still active, and `lost` when another process removed its directory.

The transforms take any `rfft`/`irfft` pair that undo each other on one frame; rows of a batch are
independent and are modelled one at a time, except in `OverTrack` and the layouts.

Where the code does less than its comments say:

- A second `stop` returns true while the worker is still inside the separator, because the first
  one holds the join handle (queue.rs:198-200). `StopSaysOut` gives the exact condition: a stop about
  to answer is right exactly if it holds or is about to take the handle, or the worker has left.
  `FirstStopIsRight` follows the stop that finds the handle there, and `SecondStopSaysOutTooEarly` is
  a run in which the other case goes wrong.
- `submit` looks only at the room in the queue, not at `shutdown` (queue.rs:216-229).
  `StoppedQueueAccepts` has a submission accepted from every state with room and `pending` free that a
  stop can leave; `StoppedQueueKeepsWaiting` says that such a job then waits for good, unless a cancel
  drops it.
- A job dropped while it waits is never shown as over: it stays queued (`UnstartedIsQueued`).
  `WaitingCanBeDropped` does it from every state in which a job waits and `pending` is free, and
  `DroppedWhileWaiting` is a run.
- `publish` over a key that still has an entry drops the old one without marking it
  (cache.rs:398-399). `PublishIsSafeWhen` gives the condition to look at first: in any reachable state,
  publishing a key not yet published over can leave a handed entry with neither files nor a mark
  exactly if the key still has an entry that is staged, indexed or being taken out and whose directory
  the deletion has not reached. `RepublishingStrands` does it to any indexed entry a caller holds.
- The hash preimage is not unambiguous for every model text. `CollideExactlyWhen` says which texts can
  collide: those of which one, behind its length, ends in a whole header (the eight fields between
  samples and model) and the other text behind its own length. So texts without a zero byte never do
  (`PreimageIsInjective`), nor do texts whose lengths differ by less than 40 bytes
  (`CloseLengthsNeverCollide`). `ZeroBytesCollide` and `TextsCollide` build ones that do. The server's
  own model text is what `identity_of` makes (switch.rs:291-311), and `KeyTellsTheRun` shows that it is
  on the safe side wherever the artefact's name has no zero character.
- Nothing in `set_progress` keeps a finished job from being set back (jobs.rs:138-140).
  `UpdateKeepsWhen` says exactly when that leaves the index wrong, and `RevivedJobIsLost` gives a
  sequence of calls. It is a misuse the program never makes: `QueueWritesAbsorb` shows that every
  stage the queue writes to a finished job is again a terminal one.
- The U-Net restores a frequency size divisible by `4^depth` only up to 2048 bins, the rows of its
  frequency embedding times the stride.

## Model

| member | source | states |
|---|---|---|
| QueueObject.Inner.constructor | crates/stemd-server/src/queue.rs:111-119 | a new queue is the protocol's initial shared state |
| QueueObject.Inner.Submit | crates/stemd-server/src/queue.rs:216-229 | refused with the depth exactly at the limit, else last in line at the position returned |
| QueueObject.Inner.CancelWaiting | crates/stemd-server/src/queue.rs:237-244 | every occurrence of the job leaves the queue, order kept; a hit exactly if there was one |
| QueueObject.Inner.CancelRunning | crates/stemd-server/src/queue.rs:247-254 | the running job's own flag is set exactly if it is that job |
| QueueObject.Inner.Stage | crates/stemd-server/src/queue.rs:277-284 | refused exactly when stopping; else the model is staged and the one it replaces handed back |
| QueueObject.Inner.StopTake | crates/stemd-server/src/queue.rs:183-187 | the staged model is taken, to be answered by the stop |
| QueueObject.Inner.StopSignal | crates/stemd-server/src/queue.rs:190-195 | the flag of whatever runs is set, and no other |
| QueueObject.Inner.Next | crates/stemd-server/src/queue.rs:352-375 | shutdown before a staged model before the oldest job, which is registered with a fresh flag |
| QueueObject.PassIsLook | crates/stemd-server/src/queue.rs:352-375 | the worker's small steps through one pass end where `Next` does, every lock given back |
| QueueInvariant.LocksKept | crates/stemd-server/src/queue.rs:172-375 | every action keeps lock ownership and program counters in agreement |
| QueueInvariant.Exclusive | crates/stemd-server/src/queue.rs:66-82 | a lock is inside at most one thread |
| QueueInvariant.InvKept | crates/stemd-server/src/queue.rs:172-528 | every action of every thread keeps the whole invariant |
| QueueTheorems.EveryStateIsGood | crates/stemd-server/src/queue.rs:100-458 | the invariant holds in every state of every run |
| QueueTheorems.NoLostWakeup | crates/stemd-server/src/queue.rs:172-375 | a parked worker has nothing to do, or some thread is between its update and its notify |
| QueueTheorems.LocksAreOrdered | crates/stemd-server/src/queue.rs:188-190 | whoever waits for a lock holding another holds `pending` and waits for a different one: no cycle |
| QueueTheorems.NoDeadlock | crates/stemd-server/src/queue.rs:172-458 | where nothing can move nobody is inside an operation, every install is answered, and the worker is parked over an empty queue or gone after a stop |
| QueueTheorems.InstallsAreConserved | crates/stemd-server/src/queue.rs:270-302 | every install request is staged, with the worker, in one caller's hand, or answered exactly once |
| QueueTheorems.AnswersAreFinal | crates/stemd-server/src/queue.rs:270-302 | an answer is never changed or joined by a second, over the rest of the run |
| QueueTheorems.AnswersAreTrue | crates/stemd-server/src/queue.rs:382-404 | built names the model that caller asked for; superseded means a later request; shutting down means a stop |
| QueueOutcomes.AnswersAreEarned | crates/stemd-server/src/queue.rs:382-438 | read off the run: an answer is built, failed or panicked exactly as that request's own build came out, superseded exactly if an install displaced it, shutting down exactly if a stop took it |
| QueueOutcomes.BuiltMeansInstalled | crates/stemd-server/src/queue.rs:413-438 | when the worker next looks for work after a build, the model asked for is published and run if the build succeeded, and otherwise neither has changed |
| QueueOutcomes.InstallHears | crates/stemd-server/src/queue.rs:270-302 | an install is refused exactly once a stop has begun, stages the model it was called with, and hears the answer to that very request |
| QueueTheorems.RepliesNeverBlock | crates/stemd-server/src/queue.rs:121-123 | the one-place reply channel is empty whenever anyone is about to send on it |
| QueueTheorems.InfoDescribesWhatRuns | crates/stemd-server/src/queue.rs:75-81 | whenever a job runs, what is published describes the separator running it |
| QueueTheorems.OnlyABuiltModelIsInstalled | crates/stemd-server/src/queue.rs:413-438 | only a build that succeeded changes what is published or run; a failed or panicking one changes neither |
| QueueTheorems.JobsAreConserved | crates/stemd-server/src/queue.rs:216-255 | an accepted job is in exactly one of waiting, in the worker's hands, shown as over, dropped; waiting never exceeds the limit |
| QueueTheorems.StartedInOrder | crates/stemd-server/src/queue.rs:352-375 | what has started is a prefix of what was accepted less what was dropped, and the rest is what waits |
| QueueOutcomes.StartsInTurn | crates/stemd-server/src/queue.rs:352-375 | a job is started only with no stop raised and no model staged, and it is the oldest that waits |
| QueueTheorems.LeftMeansTerminal | crates/stemd-server/src/queue.rs:440-528 | every job the worker has left, panics at any step included, shows a terminal stage and what goes with it: stems with done, an error with failed, nothing with cancelled |
| QueueOutcomes.EndsAsItCameOut | crates/stemd-server/src/queue.rs:440-528 | read off the run: a job left is done exactly if its separation and then its publication succeeded and nothing panicked, cancelled exactly if its separation was, failed exactly if either failed or something panicked |
| QueueOutcomes.EveryOutcomeIsTaken | crates/stemd-server/src/queue.rs:382-528 | whichever way a build, a separation or a publication comes out, the worker can go on |
| QueueTheorems.LeftIsFinal | crates/stemd-server/src/queue.rs:440-458 | nothing the queue does later changes what such a job shows |
| QueueTheorems.StagesAreHonest | crates/stemd-server/src/jobs.rs:142-168 | at every step a job shown as done has its entry and result attached, and one shown as failed its error |
| QueueTheorems.TerminalIsForever | crates/stemd-server/src/queue.rs:440-528 | once terminal a job's stage is terminal for the rest of the run, whoever acts |
| QueueTheorems.QueueWritesAbsorb | crates/stemd-server/src/jobs.rs:138-168 | whatever the queue writes to a registered job is an operation the index's runs allow |
| QueueTheorems.UnstartedIsQueued | crates/stemd-server/src/queue.rs:237-244 | an accepted job that never started shows as queued, dropped or not, and waits unless it was dropped |
| QueueTheorems.FlagsReachOnlyTheirJob | crates/stemd-server/src/queue.rs:47-55 | a flag is set only for a cancel of that very job or a stop that found it running, and a job shown as cancelled had its own flag set |
| QueueTheorems.CancelSaysNoOnlyWhenAbsent | crates/stemd-server/src/queue.rs:236-255 | of a cancel that says no there is a state of the run, inside the call, in which its job was neither waiting nor in the worker's hands |
| QueueTheorems.CancelRemembersAbsence | crates/stemd-server/src/queue.rs:236-246 | a cancel remembers an absence only if the job was absent as its first section ended |
| QueueOutcomes.CancelHears | crates/stemd-server/src/queue.rs:236-255 | a cancel hears yes exactly if it took the job out of the queue or told the one in flight, whose flag it sets and no other |
| QueueTheorems.NothingStartsAfterStop | crates/stemd-server/src/queue.rs:172-179 | once a stop has left its first section no job is ever started |
| QueueTheorems.StopReachesTheJobInFlight | crates/stemd-server/src/queue.rs:188-196 | past the running slot, a stop has the job in flight told through its own flag, or it is over |
| QueueStops.StopSaysOut | crates/stemd-server/src/queue.rs:198-213 | a stop about to answer is right to say the worker is out exactly if it has or takes the join handle, or the worker has left |
| QueueStops.JoiningStopAnswers | crates/stemd-server/src/queue.rs:201-213 | a stop that joined says true once the worker is out, and false only as its grace runs out |
| QueueStops.FirstStopIsRight | crates/stemd-server/src/queue.rs:198-213 | a stop that finds the handle there says true only with the worker out, and it stays out |
| QueueStops.SecondStopSaysOutTooEarly | crates/stemd-server/src/queue.rs:198-200 | a run in which a second stop returns true while the worker still separates |
| QueueStops.SubmitLooksOnlyAtRoom | crates/stemd-server/src/queue.rs:216-229 | a submission is accepted exactly if there is room, stopping or not |
| QueueOutcomes.SubmitHears | crates/stemd-server/src/queue.rs:216-229 | a submission hears the place in the queue its job was given |
| QueueStops.StoppedQueueAccepts | crates/stemd-server/src/queue.rs:216-229 | from every state a stop can leave with room and `pending` free, a run goes on in which a new job is accepted |
| QueueStops.StoppedQueueKeepsWaiting | crates/stemd-server/src/queue.rs:352-360 | what had not started when a stop raised shutdown never starts, shows as queued, and waits unless a cancel drops it |
| QueueStops.SubmittedAfterStop | crates/stemd-server/src/queue.rs:216-229 | a run in which a submission after a stop is accepted |
| QueueStops.WaitingCanBeDropped | crates/stemd-server/src/queue.rs:236-244 | from every state in which a job waits and `pending` is free, a run goes on in which a cancel drops it, shown as queued |
| QueueStops.DroppedWhileWaiting | crates/stemd-server/src/queue.rs:236-244 | a run in which a job is dropped while it waits |
| QueueMeasure.EveryActionCounts | crates/stemd-server/src/queue.rs:172-458 | every action but a new call takes from what is due, a separator's report apart |
| QueueMeasure.CallsRunOut | crates/stemd-server/src/queue.rs:172-458 | without new calls the threads take no more steps than are due |
| QueueMeasure.EveryCallComesBack | crates/stemd-server/src/queue.rs:270-302 | and wherever they stop every caller is back and every install has had its one answer |
| QueueMeasure.EveryJobEnds | crates/stemd-server/src/queue.rs:413-458 | where a queue nobody stopped comes to rest every accepted job was dropped or shows how it ended |
| QueueMeasure.EveryRunCanFinish | crates/stemd-server/src/queue.rs:172-458 | every run can be taken on, without new calls, to such a rest |
| JobStore.Job.constructor | crates/stemd-server/src/jobs.rs:240-249 | a fresh job is queued with one waiter and no entry |
| JobStore.Job.Release | crates/stemd-server/src/jobs.rs:132-136 | one fewer, and a repeated release stays at none |
| JobStore.JobStore.constructor | crates/stemd-server/src/jobs.rs:215-221 | an empty registry, attempts from one |
| JobStore.JobStore.Claim | crates/stemd-server/src/jobs.rs:234-252 | the live job of the key joined, or a fresh registered one; the index stays right |
| JobStore.JobStore.Remove | crates/stemd-server/src/jobs.rs:186-196 | the job goes, and its key only if the job still represents it |
| JobStore.JobStore.Prune | crates/stemd-server/src/jobs.rs:272-299 | exactly the useless handles go, whatever order they are visited in |
| JobStore.JobStore.ChangeShows | crates/stemd-server/src/jobs.rs:138-168 | a change through a handle shows as an update of that job alone, and not at all once it is removed |
| JobRegistry.InFlightIsScan | crates/stemd-server/src/jobs.rs:199-202 | the index finds exactly the job a scan over live jobs finds, and there is at most one |
| JobRegistry.ClaimKeeps | crates/stemd-server/src/jobs.rs:234-252 | a claim leaves one live job for its key: the one it returns |
| JobRegistry.RemoveKeeps | crates/stemd-server/src/jobs.rs:186-196 | removal never leaves the index dangling |
| JobRegistry.PruneKeeps | crates/stemd-server/src/jobs.rs:272-299 | pruning keeps the index right and removes or changes no live job |
| JobRegistry.PrunedIs | crates/stemd-server/src/jobs.rs:272-299 | a prune takes, of the jobs that are over, those whose entry was evicted and those without one past the time allowed, and no others |
| JobRegistry.PruneIsRemoveAll | crates/stemd-server/src/jobs.rs:294-298 | removing the stale jobs one by one in any order is the pruned registry |
| JobRegistry.UpdateKeepsWhen | crates/stemd-server/src/jobs.rs:138-168 | a stage change keeps the index right exactly when it does not bring back a job that no longer represents its key |
| JobRegistry.RevivedJobIsLost | crates/stemd-server/src/jobs.rs:138-140 | a sequence of public calls after which a finished job set back is live and the index finds another |
| JobRegistry.EveryRunIsGood | crates/stemd-server/src/jobs.rs:173-299 | over every sequence of claims, removals, prunes and stage changes the index never dangles and agrees with a scan |
| JobRegistry.IdsNeverRepeat | crates/stemd-server/src/jobs.rs:306-308 | no two jobs a store ever issued have the same id, removed ones included |
| JobRegistry.JobIdTellsAttempt | crates/stemd-server/src/jobs.rs:306-308 | an id determines its attempt number, whatever the keys |
| JobRegistry.JobIdStartsWithKey | crates/stemd-server/src/jobs.rs:306-308 | an id starts with the key cut to twelve characters |
| JobRegistry.WaitersBalance | crates/stemd-server/src/jobs.rs:122-136 | over every sequence of the store's operations, while nobody lets go of a job twice its waiters are its claims and joins less its releases |
| OverlapAdd.Run | crates/stemd-mlx/src/spectral.rs:262-314 | the grouped overlap-add is the frame-by-frame sum at every sample, for every hop, width and frame count; it fails exactly without frames |
| OverlapAdd.Gather | crates/stemd-mlx/src/spectral.rs:280-293 | the frames gathered for a start are as many as the code's count, and all of them |
| OverlapAdd.BufferFor | crates/stemd-mlx/src/spectral.rs:284-287 | the buffer holds the width and every class's slots, so no padding is negative |
| OverlapAdd.PlaceClass | crates/stemd-mlx/src/spectral.rs:290-306 | one class gathered, reshaped and padded is that class's share of the sum at every sample |
| OverlapAdd.ClassSumIsOneFrame | crates/stemd-mlx/src/spectral.rs:243-256 | frames a group apart never meet: a sample gets at most one frame of a class |
| OverlapAdd.SlotHoldsAFrame | crates/stemd-mlx/src/spectral.rs:265-266 | a slot is wide enough for a frame, with less than a hop to spare |
| Stft.ReflectPadKeeps | crates/stemd-mlx/src/spectral.rs:44-60 | accepted exactly when both pads are shorter than the signal, which then sits untouched between them |
| Stft.ReflectPadMirrors | crates/stemd-mlx/src/spectral.rs:44-60 | around each end sample, not repeated, the padded signal is its own mirror image |
| Stft.FrameFits | crates/stemd-mlx/src/spectral.rs:97-108 | there is a frame exactly wherever one fits inside the signal |
| Stft.ForwardAccepts | crates/stemd-mlx/src/spectral.rs:83-96 | a centred transform is refused exactly at half a frame or shorter, for the padding; an uncentred one below a frame, for the length |
| Stft.Inverse | crates/stemd-mlx/src/spectral.rs:129-156 | each sample is the overlap-added frames over the accumulated window-square, floored |
| Stft.RoundTrip | crates/stemd-mlx/src/spectral.rs:83-156 | the inverse of the forward returns a sample exactly if the accumulated window-square reaches the floor or the sample is zero |
| Stft.EverySampleIsCovered | crates/stemd-mlx/src/spectral.rs:83-156 | with hop at most half the frame, every sample of a centred transform lies under a non-zero window sample |
| Stft.CentredRoundTripIsExact | crates/stemd-mlx/src/spectral.rs:83-156 | a centred transform gives every sample of every signal back if the window-square reaches the floor over one hop past the middle |
| Stft.HannRoundTripIsExact | crates/stemd-mlx/src/spectral.rs:27-38 | so it does for any window that is at least a half over its middle half, with four hops or more to a frame |
| Spectral.ForwardAccepts | crates/stemd-mlx/src/spectral.rs:178-189 | the trimmed transform is refused exactly when a reflected end does not fit, else has one frame per hop begun |
| Spectral.RealDcDropsOnePhase | crates/stemd-mlx/src/spectral.rs:349-362 | only the phase of bin 0 is lost, and a spectrum without one is untouched |
| Spectral.Istft | crates/stemd-mlx/src/spectral.rs:214-243 | each sample is the overlap-added frames over the accumulated window-square, floored, at the centred position |
| Spectral.Inverse | crates/stemd-mlx/src/spectral.rs:196-208 | the answer has the length asked for and every sample is the inverse of the prepared spectra at its own position |
| Spectral.PreparedBins | crates/stemd-mlx/src/spectral.rs:196-208 | for every spectrum, bin by bin: two silent frames, each frame as it came but for its mean's phase and a zero top bin, two silent frames |
| Spectral.NormIsRipple | crates/stemd-mlx/src/spectral.rs:214-243 | at every position read back the norm is the four window samples one hop apart |
| Spectral.RoundTripIsAligned | crates/stemd-mlx/src/spectral.rs:178-243 | sample t comes back as sample t, weighted by the kept frames' share of the norm |
| Spectral.RoundTripLoss | crates/stemd-mlx/src/spectral.rs:178-243 | the loss is exactly the skipped frames' share; the round trip is exact from 1536 up to 1536 before the last frame's end, and elsewhere only for zeros |
| Spectral.RippleIsLarge | crates/stemd-mlx/src/spectral.rs:27-38 | for a window whose halves sum to one, as a periodic Hann window's do, the norm never nears the floor |
| OverTrack.Run | crates/stemd-mlx/src/apply.rs:51-134 | each sample is the weighted mean of the model's estimates of that very sample; each error exactly when it should be; a refusal at chunk k ran the model k times |
| OverTrack.Window | crates/stemd-mlx/src/apply.rs:84-102 | the chunk is the segment-long window of the zero-extended track from the offset less half the shortfall |
| OverTrack.WindowIsCentred | crates/stemd-mlx/src/apply.rs:75-107 | the model hears the samples from the segment's own offset on, a short chunk's shortfall made up on both sides with the odd sample after it, and its estimates are read back from that offset |
| OverTrack.CoversIs | crates/stemd-mlx/src/apply.rs:75-80 | a segment covers what lies in it and on the track, so neighbours share all they overlap in |
| OverTrack.StrideIs | crates/stemd-mlx/src/apply.rs:61-64 | the stride is the whole part of what the overlap leaves of a segment |
| OverTrack.ToI32Is | crates/stemd-mlx/src/apply.rs:61-61 | the cast truncates toward zero and holds at the ends of a 32-bit word |
| OverTrack.PieceIsAligned | crates/stemd-mlx/src/apply.rs:104-126 | cut and added as the code does, every sample gets its own estimate times its own weight |
| OverTrack.WhichAreCovered | crates/stemd-mlx/src/apply.rs:72-89 | every sample has a segment when the stride is at most the segment or the track is one segment |
| OverTrack.LeastWeight | crates/stemd-mlx/src/apply.rs:129-133 | the least accumulated weight is zero exactly when the stride exceeds the segment and the track reaches a gap |
| OverTrack.Weight | crates/stemd-mlx/src/apply.rs:140-149 | the crossfade is positive everywhere and at most one |
| OverTrack.WeightIsTriangular | crates/stemd-mlx/src/apply.rs:140-149 | it is one in the middle and falls by equal steps to one step at either end |
| OverTrack.MeanIsBetween | crates/stemd-mlx/src/apply.rs:114-134 | bounds on every estimate of a sample bound the sample |
| OverTrack.IdentityGivesTheTrackBack | crates/stemd-mlx/src/apply.rs:51-134 | a model that returns its chunk gives the track back, sample for sample, unless the track is empty or has a gap |
| OverTrack.OverlapLeavesNoGap | crates/stemd-mlx/src/apply.rs:61-64 | an overlap that is not negative never leaves a gap |
| Mode1.Fill | crates/stemd-core/src/resample/mode1.rs:89-136 | every output sample is the convolution with the prototype, the carried window and phase being the division's, and nothing else is written |
| Mode1.FillChunks | crates/stemd-core/src/resample/mode1.rs:166-173 | any chunking of the output writes the whole conversion |
| Mode1.Resample | crates/stemd-core/src/resample/mode1.rs:153-176 | every channel converted, whatever the number of workers |
| Mode1.EitherWayIsConv | crates/stemd-core/src/resample/mode1.rs:98-127 | the interior and edge sums both equal the convolution wherever they apply |
| Mode1.NewestIsAnInput | crates/stemd-core/src/resample/mode1.rs:144-146 | no output frame reaches past the last input sample |
| Mode1.ConvIsLinear | crates/stemd-core/src/resample/mode1.rs:89-136 | the conversion of a combination is the combination of the conversions |
| Mode1.ConvertedMinus | crates/stemd-core/src/resample/mode1.rs:153-176 | conversion and subtraction commute, over whole signals |
| Mode1.ConvertedShifts | crates/stemd-core/src/resample/mode1.rs:144-176 | 147 zeros in front delay the output by exactly 320 samples of silence, lengths included |
| Stems.DerivedPart | crates/stemd-core/src/stems.rs:124-134 | every sample is the mix less all shipped stems, silence past a stem's end |
| Stems.Mix | crates/stemd-core/src/stems.rs:140-162 | at unity the mix itself, else the base fader's mix plus each stem at its distance from it |
| Stems.FaderOf | crates/stemd-core/src/stems.rs:75-82 | each part has its own fader, and a part that has none is silent |
| Stems.FadersActOnParts | crates/stemd-core/src/stems.rs:10-20 | what the faders compute is each part at its own gain, the derived one included |
| Stems.UnityNeedsNoShortcut | crates/stemd-core/src/stems.rs:136-143 | at unity the arithmetic would give the mix as well |
| Stems.Separate | crates/stemd-core/src/hybrid.rs:282-388 | wrong geometry, no frames and a stopped half are told apart; chained, the drums half hears the mix less the vocals sample by sample, else the mix; what ships is the remainder and the vocals |
| Stems.DerivedIsDrums | crates/stemd-core/src/hybrid.rs:25-30 | subtracting what ships returns the drums estimate untouched, chained or not |
| Stems.ToRate | crates/stemd-core/src/resample/mod.rs:217-270 | untouched at the same rate or without frames; the fixed converter for 44.1 to 96 kHz and refused for any other pair; the general resampler's own answer otherwise |
| Stems.AcceptedIsAtTarget | crates/stemd-core/src/resample/mod.rs:217-270 | an accepted part with any frames comes back at the rate asked for, case by case |
| Stems.FactorsAreTheRates | crates/stemd-core/src/resample/mode1.rs:20-40 | the converter's two factors are the ratio of its two rates in lowest terms |
| Stems.ToOutputRate | crates/stemd-server/src/cache.rs:540-586 | every shipped part in order, and the derived one last when asked for, through the filter asked for; or the first refusal |
| Stems.SubtractionPassesThrough | crates/stemd-server/src/cache.rs:530-539 | for any additive filter and any number of parts, converting and then taking away is taking away and then converting |
| Stems.ConvertedRemainder | crates/stemd-server/src/cache.rs:530-539 | for any number of shipped parts, taking the returned ones from the converted mix gives the derived part that would have been returned |
| Stems.ClientRebuildsTheDrums | crates/stemd-core/src/hybrid.rs:331-360 | for the two-model arrangement it is the converted drums estimate, chained or not |
| CachePolicy.CapHolds | crates/stemd-server/src/cache.rs:472-502 | after the cap the store fits or holds one entry; what went is the shortest prefix in last-used order, never the most recent; bytes reported are the fall |
| CachePolicy.NewestStays | crates/stemd-server/src/cache.rs:483-486 | an entry used after all the others is never evicted by the cap |
| CachePolicy.ReapFits | crates/stemd-server/src/cache.rs:428-460 | after a sweep the store fits or holds one entry; below half the budget nothing goes; a wanted or unexpired entry goes only over the cap |
| CachePolicy.Rule1Is | crates/stemd-server/src/cache.rs:432-466 | rule 1 takes, above half the budget, exactly the entries never wanted that have sat longer than the time allowed |
| CachePolicy.TotalWithout | crates/stemd-server/src/cache.rs:218-220 | the total falls by an entry's own bytes whichever entry is taken out |
| CachePolicy.InsertKeepsSorted | crates/stemd-server/src/cache.rs:478-482 | placing an entry by its last use keeps the order sorted |
| Cache.Entry.MarkFetched | crates/stemd-server/src/cache.rs:184-188 | an entry is consumed once every stem was pulled, not any |
| Cache.Cache.TotalBytes | crates/stemd-server/src/cache.rs:218-220 | the sum over every entry, in whatever order |
| Cache.Cache.ByUse | crates/stemd-server/src/cache.rs:478-482 | every entry once, least recently used first |
| Cache.Cache.EnforceCap | crates/stemd-server/src/cache.rs:472-502 | the oldest go until the store fits, each marked and off the disk; count and bytes are the falls |
| Cache.Cache.GiveUpAll | crates/stemd-server/src/cache.rs:435-454 | exactly the unconsumed, expired entries go |
| Cache.Cache.Reap | crates/stemd-server/src/cache.rs:428-460 | rule 1 above half the budget, then the cap; counts and bytes are the falls |
| Cache.Cache.Publish | crates/stemd-server/src/cache.rs:361-410 | the new entry is filed over its files and the cap applied, its count and bytes the falls; an entry it replaces is not marked |
| Cache.Cache.Clear | crates/stemd-server/src/cache.rs:331-340 | every entry is marked and off the disk; tracks and bytes are what was held |
| Cache.Cache.Get | crates/stemd-server/src/cache.rs:297-326 | a hit exactly while every one of its stems is there, touched; a miss takes out and marks only that entry |
| CacheProtocol.InvKept | crates/stemd-server/src/cache.rs:297-514 | every step of every thread keeps the invariant |
| CacheProtocol.HandedIsOnDiskOrMarked | crates/stemd-server/src/cache.rs:509-514 | at every step a handed entry is on disk or marked, unless another process took it or its key was published over |
| CacheProtocol.EveryWayOutMarks | crates/stemd-server/src/cache.rs:297-460 | with the lock free, an entry is marked exactly when it is out of the index, unless published over |
| CacheProtocol.LookupsAreHonest | crates/stemd-server/src/cache.rs:297-326 | a look ends in a hit exactly if the files were there when checked; a miss removes no entry but the one it found missing, which is then marked |
| CacheProtocol.LosingIs | crates/stemd-server/src/cache.rs:299-303 | what another process takes is the directory, and every entry of its key so far is lost |
| CacheProtocol.PublishIsSafeWhen | crates/stemd-server/src/cache.rs:361-410 | in any reachable state, a key's first republish can strand one of its entries exactly if one is still about that a deletion has not reached |
| CacheProtocol.RepublishingStrands | crates/stemd-server/src/cache.rs:398-410 | from every reachable state with the lock free, any indexed entry a caller holds can be published over, lose its files and never be marked |
| CacheProtocol.PublishedOverIsNotMarked | crates/stemd-server/src/cache.rs:398-399 | one run of that, from an empty cache |
| CacheKey.PreimageIsInjective | crates/stemd-server/src/cache.rs:84-102 | different ingredients give different preimages, for every two model texts without a zero byte, of any length |
| CacheKey.CollideExactlyWhen | crates/stemd-server/src/cache.rs:84-102 | two model texts can belong to different ingredients with one preimage exactly if one of them, behind its length, ends in some header and the other behind its own |
| CacheKey.CloseLengthsNeverCollide | crates/stemd-server/src/cache.rs:84-102 | model texts whose lengths differ by less than 40 bytes never collide, zero bytes or not |
| CacheKey.LastField | crates/stemd-server/src/cache.rs:98-101 | behind anything at all, a short prefixed field reads back from the right |
| CacheKey.LastModel | crates/stemd-server/src/cache.rs:98-101 | the model text reads back however long, since a longer one would hold the other's zeros |
| CacheKey.ZeroBytesCollide | crates/stemd-server/src/cache.rs:84-102 | for any two sets of ingredients, a model text that is the first's preimage makes the second collide with the first on other samples |
| CacheKey.TextsCollide | crates/stemd-server/src/cache.rs:84-102 | for samples and a short model text below 0x80 that colliding model text is UTF-8 |
| Identity.IdentityTellsAll | crates/stemd-server/src/switch.rs:291-311 | equal identities come from the same preset or artefact, precisions and overlap, whatever the artefact's name holds and however many models a preset runs |
| Identity.PrecisionKeyTells | crates/stemd-server/src/precision.rs:71-81 | runs of as many models with the same precision key ran at the same precisions |
| Identity.PrecisionKeyIs | crates/stemd-server/src/precision.rs:71-81 | one name where the models agree, both where they do not |
| Identity.ModelPartTells | crates/stemd-server/src/switch.rs:291-304 | no custom artefact's name passes for a preset's digest, and presets differ |
| ModelKey.KeyTellsTheRun | crates/stemd-server/src/switch.rs:291-311 | equal preimages come from the same samples and output, and the same preset or artefact, precisions and overlap |
| Tensors.UnravelRavel | crates/stemd-mlx/src/roformer.rs:637-645 | a row-major place determines its index |
| Tensors.MergeAxes | crates/stemd-mlx/src/roformer.rs:637-645 | merging adjacent axes moves no element |
| Tensors.TransposeAt | crates/stemd-mlx/src/roformer.rs:637-645 | transposing moves each element to its permuted index |
| Layout.InterleaveAt | crates/stemd-mlx/src/roformer.rs:637-645 | the flattened axis is ordered by frequency, then channel, then part |
| Layout.ApplyAt | crates/stemd-mlx/src/roformer.rs:720-784 | each bin of the answer is its own spectrum value times the mask's own two features for it, and bin 0 is zero |
| Layout.MaskMeetsItsOwnBin | crates/stemd-mlx/src/roformer.rs:637-784 | a mask laid out as the spectrogram was flattened gives the pointwise complex product with bin 0 dropped |
| Channels.ComplexAsChannelsAt | crates/stemd-mlx/src/htdemucs.rs:458-463 | channel c's parts are at channels 2c and 2c + 1 |
| Channels.ChannelsAsComplexAt | crates/stemd-mlx/src/htdemucs.rs:466-476 | and are read back from there for every source |
| Channels.UnpackingUndoesPacking | crates/stemd-mlx/src/htdemucs.rs:458-476 | unpacking undoes packing, source by source, part by part |
| Bands.Split | crates/stemd-mlx/src/roformer.rs:245-254 | the moving slice gives each projection exactly its own band |
| Bands.Mask | crates/stemd-mlx/src/roformer.rs:554-566 | each band's slice of the mask is that band's own gated estimate |
| Bands.SliceOfConcat | crates/stemd-mlx/src/roformer.rs:565-565 | cut where it was joined, the axis gives each band back |
| Bands.OneBandEach | crates/stemd-mlx/src/roformer.rs:147-166 | each place on the axis is in exactly one band |
| Bands.CheckIs | crates/stemd-mlx/src/roformer.rs:142-166 | a band table is accepted exactly if its bands, unrolled, cover the axis of all the bins |
| Bands.BandHoldsItsBins | crates/stemd-mlx/src/roformer.rs:147-166 | a table that `check` accepts puts every part of a bin in the bin's own band, at its own offset |
| UNet.Load | crates/stemd-mlx/src/htdemucs.rs:159-245 | pushing encoders and inserting decoders in front builds a mirror whose channels double and halve |
| UNet.Encode | crates/stemd-mlx/src/htdemucs.rs:365-397 | succeeds exactly when every level has a whole stride of bins and the first fits the embedding, leaving each level's skips and lengths |
| UNet.Decode | crates/stemd-mlx/src/htdemucs.rs:420-453 | every pop is the mirror encoder's skip and length; succeeds exactly where no bins were dropped between levels, with all stacks empty |
| UNet.Run | crates/stemd-mlx/src/htdemucs.rs:309-453 | both branches end at the encoder's input length for any time length, and the frequency size comes back exactly when divisible by 4^depth and within the embedding |
| UNet.EncFreqAt | crates/stemd-mlx/src/layers.rs:449-489 | an encoder layer quarters the bins, or fails below a stride |
| UNet.EncTimeAt | crates/stemd-mlx/src/layers.rs:449-465 | a time layer takes any positive length to its quarter, rounded up |
| UNet.DecFreqAt | crates/stemd-mlx/src/layers.rs:600-640 | a decoder layer fed its own skip writes four bins for each |
| UNet.DecTimeAt | crates/stemd-mlx/src/layers.rs:600-640 | the slice to the recorded length is always in range and gives that length back |
| UNet.LayersRefuse | crates/stemd-mlx/src/layers.rs:449-640 | a layer fails on channels it was not built for, on no frames, and in a decoder on another layer's skip |
| UNet.RestoredWhenDivisible | crates/stemd-mlx/src/htdemucs.rs:365-453 | the condition for coming back whole is divisibility by 4^depth up to 2048 bins, both ways |

## Left out

- f32 and f16 rounding: samples, weights and windows are exact reals; a stride is the cast of an exact product, and text lengths and counters do not wrap.
- MLX and the transforms inside it: `rfft`/`irfft` are any pair that undo each other on a frame, and the models are arbitrary functions with the right output shape.
- The cosine of the Hann window: the window is any with a zero only at index 0, and for the norm's bound any whose halves sum to one.
- Threads inside the converter and the stem encoders: each fills its own range, so they run in turn.
- Wall-clock time: last-used times, creation times and time-outs are numbers given to the operations, and no promptness is claimed.
- `Queue::start` with a first model that fails to load, `Drop`, spurious wakeups of the condition variable, and the progress text of waiting jobs.
- A panic inside the handler of a panic, which would end the worker's thread; and a separator that never returns, whose reports the measure does not count.
- What the HTTP path does to a job outside the queue: completing it from the cache, failing it when its upload cannot be decoded or the queue is full, and removing it from the store once its last waiter lets go.
- The smallest setters (`Job::join`, `complete`, `cancelled` and `fail` as one call each, `Cache::delete`, the stores of `shutdown`, `info` and `running`): modelled, but their order among other threads is what `QueueProtocol` and `CacheProtocol` prove. The fields of a job's result are not modelled.
- `Switcher`'s own states, downloads and verification of artefacts, and the race on `busy` in switch.rs:176-203.
- The drop folder (drops.rs), HTTP routing, the command line, discovery, settings and logging.
- The file system beyond a directory being there with its stems or gone: staging, encoding, and a removal that fails outside `CacheProtocol`.
- Cache.Cache.Publish: starts from stems already converted, encoded and staged; that any of these, or moving them into place, can fail is not modelled.
- Cache.Cache.Get: does not model another thread between its lookup, its check of the files and its removal; `CacheProtocol` does.
- CacheProtocol.LookupsAreHonest: checks of an entry's stems are one look at its directory.
- Stems.ToRate: takes the general resampler, a library's, as any function of the planes and the two rates that may refuse.
- CacheProtocol.PublishIsSafeWhen: is stated for a key not published over before; after that an older entry may be stranded already.
- Identity.IdentityTellsAll: takes the overlap as its printed text, which holds no `;`; that printing an f32 round-trips is the library's.
- Bands.Mask: the gate's logistic function is any function of a real.
- UNet.Run: a sum of unequal shapes or a slice past the end is a failure here, where the array library might broadcast or clip; layers that are `empty` are never built by `load` and are not modelled.
- `centre_trim`, which is the identity here because the inverse transform and the time branch both end at the segment's length (Spectral.Inverse, UNet.Run).
- Normalisation of a half's input, model residual in dB, FLAC, MP3 and WAV encoding, peak scaling, and SHA-256 itself.
- Weights, attention, norms and activations.
