# BrockDJ audio core: verified models

BrockDJ's audio core is a set of small lock-free protocols between a control thread, the
audio callback and workers, with a few exact data structures beside them. This project
models both and proves what they promise.

The protocols are step relations: every party has a program counter, every step makes at
most one access to shared memory (what happens under a mutex and cannot be seen outside it
counts as one), and the theorems speak about every interleaving of any length. Objects that
one thread uses at a time are classes whose methods work in place, are proved against
functions on their contents, and have their promises proved about those functions; of the
sampler's two classes the table lists only the methods with most branches. Arithmetic on
doubles is modelled over exact reals. `dafny verify dfyconfig.toml` verifies the whole
project.

| module | models |
|---|---|
| `StretchSeeding`, `OutputHistory` | the two stretcher pipelines, worker-side rebuilds and seeds, catch-up batches, and the ring of emitted frames |
| `SeedDecisions`, `PipelineTurns` | over the runs of `StretchSeeding`: which seeds go live, and what one pass of callback or worker comes to |
| `SnapshotStore`, `SpscRing`, `AudioParameters` | the triple buffer, both command rings, and the two objects of `AudioParameters.h` call by call |
| `Seqlock`, `PresentationClock` | the sequence lock of the presentation clock and the playback cells, and the extrapolated position |
| `ReaderGate`, `EndpointRetirement` | gate and reader count around track and sample swaps, and retirement of the auxiliary endpoint |
| `SetRecorder`, `WaveFile` | capture ring, marks, part rotation, and the bytes of a part |
| `TrackLoader` | queued loads, the shared count of pending loads, and cache handles |
| `AnalysisJobQueue` | the deduplicating priority queue with its fairness interval |
| `SamplerVoices`, `SamplerController` | voice allocation, and the slots, jobs and asset files around it |
| `BeatJump` | beat position, beat jumps, bar phase and snapping |
| `TempoTimeline`, `ControlClock` | the ring-buffered prefix sum of rates, and coalescing deadlines |
| `SectionVersions` | printing and reading the section versions |
| `EmittedStream`, `Arithmetic`, `Wrappers` | shared helpers |

Seven statements one might expect turn out to need a condition. Each is proved with the
condition, and shown to fail without it:

- The worker's reclaim of a stale slot compares, exchanges and then stores. The ownership of
  the stretchers holds in every run in which the callback does not, between the failed
  exchange and the store, claim that slot with the configuration it wants in it
  (`StretchSeeding.Undisturbed`). A step breaks the invariant if and only if it is such a
  claim (`OnlyDisturbingBreaks`), and from every such claim the run can go on until the
  active pipeline is being rebuilt (`DisturbingHarms`); `DisturbedRun` is one from the start.
  Who owns a seed and which seeds go live does not depend on it (`SeedIsPinned`,
  `SeedDecisions`).
- A track mark reads the written position and exchanges it later. Parts end exactly at marks,
  or when full, as long as no mark is accepted behind the frames the writer is committed to
  at the exchange (`SetRecorder.PartsSplitAtMarks`, `Reach`); a mark whose read and exchange
  nothing separates is never late (`PromptMarksAreAhead`). While no write fails, a part ends
  up with frames from both sides of a mark if and only if that mark was accepted inside
  (`StraddledIffInside`); one that is behind without being inside makes a part end where no
  mark is (`LateMarkEndsElsewhere`). `LateMarkStraddles` is a run from the start.
- Every opened cache handle is released or passed to one completion when every load has a
  completion (`TrackLoader.HeardLoadsLoseNothing`). The loader forgets the handle of a
  current load without one (`OnlyUnheardHandlesAreLost`); `UnheardLoadLosesHandle` is such a
  run from the start.
- The wait of a library job is bounded (`AnalysisJobQueue.LibraryWaitIsBounded`). That of a
  maintenance job is not when two jobs fit (`MaintenanceCanStarve`); when only one does, the
  next pop serves it (`MaintenanceAloneIsServed`).
- Analysis jobs with other options never share a key if and only if no fingerprint ends with a
  bar and the other one (`OtherOptionsDiffer`, `NestedOptionsCollide`); the fingerprints that
  the analysis options print hold no bar (`PlainOptionsDiffer`).
- Unregistering an endpoint that is no longer registered returns at once. Its retirement is
  then complete, so that no callback holds it, if and only if no other control thread is still
  retiring it (`EndpointRetirement.EarlyReturn`); `EarlyReturnWhileHeld` shows the other case.
- A beat jump moves the beat position by its length from everywhere if and only if every gap
  of the grid is above 0.0001 seconds (`BeatJump.ShiftNeedsGaps`).

## Model

| member | source | states |
|---|---|---|
| StretchSeeding.SeedOwnership | src/audio/TimeStretchProcessor.cpp:342-566 | In every interleaving without a disturbing claim, a seed state other than Idle means keylock rendering is off, the seeded slot is the active one and neither it nor the snapshot changes in any step; no stretcher is used by callback and worker at once; the active slot is never built or rebuilt |
| StretchSeeding.SeedPinsSlot | src/audio/TimeStretchProcessor.cpp:443-566 | While a seed is in flight no step at all changes the active slot or the published snapshot |
| StretchSeeding.FedIsOneWindow | src/audio/TimeStretchProcessor.cpp:443-720 | A pipeline fed from the output history has received one gap-free window of the emitted stream since its reset, no shorter than its pre-roll and with nothing from before playback started, across any number of catch-up batches, and goes live only when the window ends at the last emitted frame |
| StretchSeeding.StepKeepsCore | src/audio/TimeStretchProcessor.cpp:342-720 | Every step but the disturbing claim keeps the ownership invariant |
| StretchSeeding.StepKeepsWindow | src/audio/TimeStretchProcessor.cpp:443-720 | Every step keeps the account of what the seeded stretcher was fed |
| StretchSeeding.OnlyDisturbingBreaks | src/audio/TimeStretchProcessor.cpp:362-400 | A step keeps the ownership invariant if and only if it is not a successful claim, for the wanted configuration, of the slot the worker is about to give back |
| StretchSeeding.DisturbingHarms | src/audio/TimeStretchProcessor.cpp:359-412 | After every such claim a few more steps make the active slot one that the worker is rebuilding |
| StretchSeeding.DisturbedRun | src/audio/TimeStretchProcessor.cpp:362-416 | A run from the start after which the active pipeline is being rebuilt by the worker |
| StretchSeeding.SeedIsPinned | src/audio/TimeStretchProcessor.cpp:390-566 | In every interleaving, with disturbing claims too, a seed in flight means that keylock rendering is off, that the seeded slot is the active one, and that neither it nor the snapshot changes |
| StretchSeeding.StepKeepsOwned | src/audio/TimeStretchProcessor.cpp:342-720 | Every step, disturbing claims included, keeps the part of the ownership invariant that is not about slots |
| SeedDecisions.SeedOutcome | src/audio/TimeStretchProcessor.cpp:662-714 | In every run, disturbed or not, a finished seed goes live if and only if nothing spoiled it since it was published, it ends at the last emitted frame and the track stands where it stood; otherwise a bridge block is played and another seed requested, which goes on from this one if and only if nothing spoiled it and frames were emitted since |
| SeedDecisions.LiveSeedsAreIntact | src/audio/TimeStretchProcessor.cpp:583-714 | Whenever rendering through a stretcher starts, in any run at all, that run has a step that published the seed and a later one that stamped it, and between them no discontinuity or new pipeline was noticed, no block was rendered with keylock off, and track, seek and transport generations did not move |
| SeedDecisions.ValidityIsIntactness | src/audio/TimeStretchProcessor.cpp:443-692 | In every run what the callback tests of a seed, its flag and its stamp, says exactly that the latest published seed was not spoiled |
| SeedDecisions.SeedStartsAfterInterruption | src/audio/TimeStretchProcessor.cpp:456-462 | In every run without a disturbing claim a pipeline fed from the output history goes live with nothing it was fed from before the last discontinuity or pause |
| SeedDecisions.RequestOutcome | src/audio/TimeStretchProcessor.cpp:443-482 | The request after a bridge block publishes a seed that ends with that block: exactly the missed frames when it goes on from an intact seed, else a whole pre-roll after a reset; it is refused only while too few frames were emitted since playback started, or when a read-ahead source cannot give all frames |
| StretchSeeding.PreRollCovers | src/audio/TimeStretchProcessor.cpp:450-454 | A pre-roll is 4096 frames or twice the latency, whichever is more, as far as the ring holds them |
| SeedDecisions.PublishOutcome | src/audio/TimeStretchProcessor.cpp:478-481 | What was published is offered to the worker as it is |
| SeedDecisions.RaisedIsNoticed | src/audio/TimeStretchProcessor.cpp:583-660 | In every run a discontinuity or new pipeline announced before the callback looks for it in a block has been noticed when it has looked, and no seed published before the announcement is intact from then on |
| PipelineTurns.ActivationAlone | src/audio/TimeStretchProcessor.cpp:390-420 | Undisturbed, the callback swaps in the first slot that offers the wanted configuration, gives back the pipeline it replaces and what it found outdated, and looks for nothing while a seed is in flight |
| PipelineTurns.ActiveIsWanted | src/audio/TimeStretchProcessor.cpp:390-420 | In every run without a disturbing claim a pipeline that becomes active has the configuration that was wanted when that block began to look for one |
| PipelineTurns.DisturbedActivation | src/audio/TimeStretchProcessor.cpp:361-409 | A run from the start, with a disturbing claim, that makes a pipeline active whose configuration is not the one claimed |
| PipelineTurns.RoutingAlone | src/audio/TimeStretchProcessor.cpp:583-662 | How a block chooses between the stretcher, a fade, direct playback and looking for a seed, and what each choice invalidates |
| PipelineTurns.RenderOutcome | src/audio/TimeStretchProcessor.cpp:604-720 | Every block is emitted once, whichever way it is rendered, and a pipeline that renders is fed what it consumed |
| PipelineTurns.EveryBlockOnce | src/audio/TimeStretchProcessor.cpp:568-720 | In every run, whatever is swapped, seeded or given up meanwhile, the emitted stream is made of exactly one block for every callback that has rendered, in order |
| PipelineTurns.BlockEnds | src/audio/TimeStretchProcessor.cpp:568-720 | Every step of the callback brings the end of its block nearer, and no other thread moves it |
| PipelineTurns.NoSeedIsBridged | src/audio/TimeStretchProcessor.cpp:662-710 | Without a finished seed a bridge block is played, and a seed requested after it exactly when none is on its way |
| PipelineTurns.SeedJobAlone | src/audio/TimeStretchProcessor.cpp:484-566 | Undisturbed, the worker takes a requested seed first and feeds the whole snapshot, after a reset if the job says so |
| PipelineTurns.StoppedWorkerEnds | src/audio/TimeStretchProcessor.cpp:490-498 | A worker stopped while it waits with a seed job leaves the job as it is, and after one more look for a rebuild does nothing |
| PipelineTurns.RebuildAlone | src/audio/TimeStretchProcessor.cpp:357-387 | Undisturbed, the worker builds the wanted configuration in the empty slot that is not active, gives an outdated prepared one back, and touches nothing else |
| PipelineTurns.SupersededAlone | src/audio/TimeStretchProcessor.cpp:378-385 | A pipeline superseded while it was built is not offered |
| OutputHistory.WrittenHolds | src/audio/TimeStretchProcessor.cpp:948-966 | Writing a block, wrapped at most once, leaves every ring entry holding the emitted frame of its age |
| OutputHistory.Ring.Append | src/audio/TimeStretchProcessor.cpp:948-966 | Appending any part of a block, also one longer than the ring, extends the emitted stream by exactly that part |
| OutputHistory.Ring.Read | src/audio/TimeStretchProcessor.cpp:968-982 | Reading gives the newest frames in order, or nothing when they do not fit |
| SnapshotStore.SlotsStayApart | src/audio/AudioParameters.h:76-112 | The slots of writer, mailbox and reader, counting indices in flight, are always a permutation of 0, 1, 2; no slot is written while it is read |
| SnapshotStore.SnapshotIsCommitted | src/audio/AudioParameters.h:76-96 | A snapshot is one whole committed state, not older than any update finished before it began, nor than the snapshot before |
| SnapshotStore.VersionsNeverGoBack | src/audio/AudioParameters.h:76-96 | No step changes a committed state or lowers the version last read |
| SnapshotStore.StepKeeps | src/audio/AudioParameters.h:76-96 | Every single access of update and snapshot keeps the permutation, the whole slots and their versions |
| SnapshotStore.NobodyWaits | src/audio/AudioParameters.h:76-96 | Every step of an update or a snapshot brings its end nearer, whatever the other party does |
| SnapshotStore.UpdateCommits | src/audio/AudioParameters.h:76-85 | An update commits its block as the newest version exactly once, before it returns |
| AudioParameters.ParameterStore.Update | src/audio/AudioParameters.h:76-85 | An update changes the parameters by its argument and leaves the reader's slot alone |
| AudioParameters.ParameterStore.Snapshot | src/audio/AudioParameters.h:87-96 | A snapshot gives the newest parameters and leaves the mailbox clean |
| SpscRing.RingIsFifo | src/audio/AudioParameters.h:147-168 | What was popped are whole accepted entries in push order, a prefix of them if nothing was discarded; accepted plus dropped is pushed, and a push is dropped only when it saw the ring full |
| SpscRing.UnreadIsNeverOverwritten | src/audio/SamplerAudioEngine.cpp:227-232 | No step changes an entry that is still unread |
| SpscRing.CursorOf | src/audio/SamplerAudioEngine.cpp:227-232 | Slots and increments of cursor words agree with counters that never wrap, across every wrap of 32 bits |
| SpscRing.FullTest | src/audio/AudioParameters.h:147-155 | Both full tests say that exactly the limit of entries is unread |
| SpscRing.StepKeeps | src/audio/SamplerAudioEngine.cpp:317-328 | Every single access of push, pop, batch drain and panic discard keeps both cursors, the slots and the order |
| SpscRing.PushEnds | src/audio/AudioParameters.h:147-158 | A push never waits, looks once whether the ring is full, and is accepted with its own entry or counted as dropped accordingly |
| SpscRing.PopStopsWhenEmpty | src/audio/AudioParameters.h:160-164 | A pop or batch stops exactly when nothing is left of what was there when it looked |
| SpscRing.PopTakesOldest | src/audio/AudioParameters.h:165-167 | The entry taken is the oldest one, whole |
| SpscRing.PopGivesBack | src/audio/SamplerAudioEngine.cpp:317-328 | Storing the read cursor gives all taken slots back, and a discard all that were there when it looked |
| AudioParameters.CommandQueue.Push | src/audio/AudioParameters.h:147-158 | A push is accepted exactly when fewer than capacity minus one commands wait; otherwise it is counted as dropped and changes nothing else |
| AudioParameters.CommandQueue.Pop | src/audio/AudioParameters.h:160-168 | A pop takes the oldest command, or nothing from an empty queue |
| Seqlock.ReadIsPublished | src/audio/AudioPresentationClock.h:39-71 | A read that returns equals, field for field, the published record numbered by its even sequence, not older than the newest when the read began nor than the one read before |
| Seqlock.RecordsAreStable | src/audio/AudioPresentationClock.h:39-51 | Records are never changed, reads never go back, and the sequence counts publications |
| Seqlock.StepKeeps | src/audio/SamplerAudioEngine.cpp:87-107 | Every single access keeps the invariant, with unlimited or limited read attempts |
| Seqlock.UndisturbedReadReturns | src/audio/AudioPresentationClock.h:53-71 | A read that no publication disturbs returns the newest record, in one step for each field and three more |
| Seqlock.GivesUpAtLimit | src/audio/SamplerAudioEngine.cpp:87-99 | A read is given up exactly at its limit-th failure, and without a limit never |
| Seqlock.PublicationEnds | src/audio/AudioPresentationClock.h:39-51 | A publication stores all its fields and ends |
| PresentationClock.WrapKeepsPhase | src/audio/AudioPresentationClock.h:24-29 | Wrapping puts any position into the loop and moves it by whole turns only |
| PresentationClock.LoopIsKept | src/audio/AudioPresentationClock.h:18-31 | A position published inside an active loop is shown inside it, whole turns from where it would be, at any time and for either direction |
| PresentationClock.StalledClockStops | src/audio/AudioPresentationClock.h:18-23 | From a twentieth of a second after the last publication the position stands still |
| PresentationClock.PlaybackMovesOn | src/audio/AudioPresentationClock.h:18-31 | Near its publication a position moves on at its rate, and a latency shows what was heard that much earlier |
| PresentationClock.LoopIsEntered | src/audio/AudioPresentationClock.h:24-29 | A position outside an active loop is shown as it is until it reaches the far end of the loop, and past that inside the loop, for either direction |
| ReaderGate.SwapExcludesReaders | src/audio/DeckAudioPipeline.cpp:59-72 | With any number of readers, the count is exact and nobody is past the gate from the zero count until the gate opens |
| ReaderGate.ResourceIsStable | src/audio/SamplerAudioEngine.cpp:7-15 | The track or sample a reader uses does not change while it is inside |
| ReaderGate.OneWriterAtATime | src/audio/DeckAudioPipeline.cpp:206-233 | While a callback is inside, the control thread replaces nothing |
| ReaderGate.RefusedWhileReplacing | src/audio/DeckAudioPipeline.cpp:229-233 | A reader is refused exactly while the control thread is replacing something |
| ReaderGate.WaitsForReaders | src/audio/DeckAudioPipeline.cpp:59-72 | The control thread waits exactly for the counted readers, then replaces, and only opening the gate lets readers in again |
| EndpointRetirement.NobodyHoldsRetired | src/audio/AudioEngine.cpp:150-236 | Once the retirement of a registration has returned, no callback, nor a device start or stop, holds it at any later step and it is never registered again |
| EndpointRetirement.HeldIsOfItsGeneration | src/audio/AudioEngine.cpp:263-273 | A callback that keeps the pointer holds the registration of the generation it loaded twice |
| EndpointRetirement.EarlyReturn | src/audio/AudioEngine.cpp:150-164 | An unregistration that does not match returns at once; its registration has been retired completely if and only if no other control thread is still waiting to retire it |
| EndpointRetirement.EarlyReturnWhileHeld | src/audio/AudioEngine.cpp:150-182 | A run in which unregistering returns during a shutdown while a callback still holds the endpoint |
| EndpointRetirement.StepKeeps | src/audio/AudioEngine.cpp:133-170 | Every step of registering, retiring, shutting down and reading keeps the invariant |
| EndpointRetirement.CallsEnd | src/audio/AudioEngine.cpp:133-182 | Every step of a call brings its end nearer, except that a retirement waits exactly while a reader is counted |
| EndpointRetirement.RegisterOutcome | src/audio/AudioEngine.cpp:133-148 | Registering is accepted exactly when nothing is registered and the engine is not shutting down; then that endpoint is registered with the newest generation before the mutex is given back |
| EndpointRetirement.RetireOutcome | src/audio/AudioEngine.cpp:150-182 | An unregistration goes ahead exactly when endpoint and generation match, a shutdown always, and nothing is registered when the mutex is given back |
| WaveFile.FileRoundTrip | src/audio/SetRecorder.cpp:16-32 | A header with the length of its data is read by the WAVE format's rules as stereo 24-bit audio of that rate, if the sizes fit in 32 bits |
| WaveFile.EncodeAllRoundTrip | src/audio/SetRecorder.cpp:172-176 | Three little-endian bytes a sample read back, sign included, as the same samples |
| WaveFile.QuantisedIsNear | src/audio/SetRecorder.cpp:174-174 | A quantised sample is at most half a step from its value |
| WaveFile.QuantisedIsNearest | src/audio/SetRecorder.cpp:174-174 | For every finite sample, overs included, no legal code is nearer than the one written, of two equally near ones it is the one farther from zero; a sample that is not finite gives 0 |
| SetRecorder.PartsArePrefix | src/audio/SetRecorder.cpp:111-190 | At every step the samples of all parts are a prefix of the quantised captured ones, and those are what was offered up to the first refusal |
| SetRecorder.PartsSplitAtMarks | src/audio/SetRecorder.cpp:105-171 | As long as no mark is accepted behind the frames the writer is committed to, parts end only at accepted marks or after at least 0x70000000 bytes, and no part holds frames from both sides of a mark |
| SetRecorder.StraddledIffInside | src/audio/SetRecorder.cpp:105-181 | A part that holds frames from both sides of a mark shows that the mark was accepted inside a part or the frames the writer was committed to; while no write fails, each such mark ends up inside a part |
| SetRecorder.PromptMarksAreAhead | src/audio/SetRecorder.cpp:105-110 | A mark whose load and exchange are one step is never behind or inside |
| SetRecorder.LateMarkEndsElsewhere | src/audio/SetRecorder.cpp:158-165 | A mark behind the read position ends a part that is not full at a frame that no mark names |
| SetRecorder.RunRecords | src/audio/SetRecorder.cpp:105-110 | The history of marks is what the run did: which were accepted, which behind and which inside |
| SetRecorder.PartsAreNeeded | src/audio/SetRecorder.cpp:155-171 | Closed parts are not empty and follow one another without gap; a part is opened only for a captured frame |
| SetRecorder.ClosedPartReadsBack | src/audio/SetRecorder.cpp:138-151 | A closed part is a well-formed file whose header length is that of its data and fits in 32 bits, and reads back as the part's samples |
| SetRecorder.LastPartReadsBack | src/audio/SetRecorder.cpp:141-188 | When the writer ends without an error the last part, too, is such a file |
| SetRecorder.LateMarkStraddles | src/audio/SetRecorder.cpp:105-110 | A run in which a mark exchanged later than its position was loaded falls inside a part |
| SetRecorder.SlotsAgree | src/audio/SetRecorder.cpp:125-173 | Callback and writer compute the same ring position for every sample |
| SetRecorder.StepKeeps | src/audio/SetRecorder.cpp:105-190 | Every step of callback, writer and control thread, with any disk failure, keeps the invariant |
| SetRecorder.HeaderIsRecent | src/audio/SetRecorder.cpp:183-186 | While nothing fails, the header of the part being written names all of its data but less than a second |
| SetRecorder.HeaderOutcome | src/audio/SetRecorder.cpp:183-186 | The header is written again when a second was saved since the last time, only then, and not after a failed write |
| SetRecorder.RefusalMeans | src/audio/SetRecorder.cpp:111-123 | A block is refused exactly when recording has stopped, the sample rate changed or the ring has no room for it, and a refusal ends the recording |
| SetRecorder.PublishCaptures | src/audio/SetRecorder.cpp:124-134 | A block that is not refused is captured whole |
| SetRecorder.StopIsFinal | src/audio/SetRecorder.cpp:95-135 | After a stop nothing more is captured, except for the block that the callback was copying already |
| SetRecorder.RoundEnds | src/audio/SetRecorder.cpp:155-187 | A round of the writer never waits, begins exactly when something was captured and nothing failed, and takes at least one frame |
| SetRecorder.WriterEnds | src/audio/SetRecorder.cpp:158-188 | The writer ends only with an empty ring, the recorder stopped and no callback at work, or after a failure, which stops the recording; then it writes the last header |
| SetRecorder.RotationOutcome | src/audio/SetRecorder.cpp:165-169 | A rotation closes the part with its header and opens the next, and the recording goes on only if all of that works |
| TrackLoader.CountIsExact | src/deck/DeckTrackLoader.cpp:207-448 | Over all loaders the pending count equals requests queued, about to be queued, being prepared, and removed but not counted down; it is never negative |
| TrackLoader.HandlesEndOnce | src/deck/DeckTrackLoader.cpp:446-480 | Every opened cache handle is with one worker, or was released, passed or lost, and never two of these |
| TrackLoader.SupersededIsReleased | src/deck/DeckTrackLoader.cpp:449-455 | The handle of a load that found itself superseded is released when its worker lets go of it |
| TrackLoader.OnlySuccessIsPassed | src/deck/DeckTrackLoader.cpp:448-480 | A completion gets a handle only from a load that did not fail, and only from its own worker |
| TrackLoader.OnlyUnheardHandlesAreLost | src/deck/DeckTrackLoader.cpp:480-480 | A handle is lost exactly when a current load without a completion ends |
| TrackLoader.HeardLoadsLoseNothing | src/deck/DeckTrackLoader.cpp:430-480 | When every load so far had a completion, every opened handle is with its worker, or was released, or was passed to one completion |
| TrackLoader.UnheardLoadLosesHandle | src/deck/DeckTrackLoader.cpp:430-480 | A run from the start after which a handle is neither held, released nor passed |
| TrackLoader.StaleStays | src/deck/DeckTrackLoader.cpp:412-426 | What is not current never becomes current again |
| TrackLoader.StaleIsReleased | src/deck/DeckTrackLoader.cpp:448-455 | A load that is superseded or shut down before its last test releases its handle |
| TrackLoader.CurrentIsPassed | src/deck/DeckTrackLoader.cpp:449-480 | A load that is current at its last test and has a completion passes its handle to it |
| TrackLoader.SuccessHasHandle | src/deck/DeckTrackLoader.cpp:446-480 | A completion is told of a success exactly when a cache handle was opened |
| TrackLoader.LoadSupersedes | src/deck/DeckTrackLoader.cpp:330-349 | When a load call stores its request, that is the newest one and what the worker does is outdated; a loader that is shutting down takes none |
| TrackLoader.CancelSupersedes | src/deck/DeckTrackLoader.cpp:376-391 | When a cancellation returns nothing is queued and what the worker does is outdated |
| TrackLoader.ShutdownIsFinal | src/deck/DeckTrackLoader.cpp:393-410 | When a shutdown returns the worker has ended and nothing is queued or counted, whatever is called later |
| TrackLoader.CallsEnd | src/deck/DeckTrackLoader.cpp:330-410 | Every call of the control thread ends: a load with its request stored, a cancellation with what it removed counted down, a shutdown with the worker joined, or at once when the loader is shutting down |
| AnalysisJobQueue.JobQueue.Push | src/analysis/AnalysisJobQueue.h:43-77 | Pushing changes the contents as specified: promotion, deduplication, drop or insertion |
| AnalysisJobQueue.JobQueue.Pop | src/analysis/AnalysisJobQueue.h:79-102 | Popping takes the front job of the specified level |
| AnalysisJobQueue.JobQueue.Clear | src/analysis/AnalysisJobQueue.h:104-104 | Clearing empties queues and index and resets the fairness counter |
| AnalysisJobQueue.JobQueue.Size | src/analysis/AnalysisJobQueue.h:106-107 | The size is the total over all levels |
| AnalysisJobQueue.PushAgainCounts | src/analysis/AnalysisJobQueue.h:52-65 | Pushing a pending job again succeeds, and is counted as deduplicated, and as reprioritized exactly when it raises the job |
| AnalysisJobQueue.ClearedIsEmpty | src/analysis/AnalysisJobQueue.h:104-104 | A cleared queue is an empty one, except that numbering and statistics go on |
| AnalysisJobQueue.SameOptionsSameTrack | src/analysis/AnalysisJobQueue.h:45-47 | With the same options two jobs share a key if and only if they are of the same track, by key or else by path |
| AnalysisJobQueue.OtherOptionsDiffer | src/analysis/AnalysisJobQueue.h:45-47 | Jobs with other options never share a key, unless one fingerprint ends with a bar and the other one |
| AnalysisJobQueue.NestedOptionsCollide | src/analysis/AnalysisJobQueue.h:46-47 | For such nested fingerprints every job shares its key with one of the other options |
| AnalysisJobQueue.PlainOptionsDiffer | src/analysis/AnalysisOptions.h:21-26 | Fingerprints as the analysis options print them hold no bar, so with them jobs with other options never share a key |
| AnalysisJobQueue.FullKeyStays | src/analysis/AnalysisJobQueue.h:47-47 | A job that carries its full key keeps it |
| AnalysisJobQueue.TwoFilesAreTwoJobs | src/analysis/AnalysisJobQueue.h:43-77 | After any run that leaves room for two, pushing two files without keys makes both pending, each under its own path |
| AnalysisJobQueue.PushedKeeps | src/analysis/AnalysisJobQueue.h:43-77 | Pushing keeps every key exactly once, in the queue the index names and with that priority, and the size equal to the index and within capacity |
| AnalysisJobQueue.PoppedKeeps | src/analysis/AnalysisJobQueue.h:79-102 | Popping keeps the same |
| AnalysisJobQueue.RepairIsUnreachable | src/analysis/AnalysisJobQueue.h:52-67 | A key is indexed exactly if some queue has its job, so the repair never happens |
| AnalysisJobQueue.PushOnlyRaises | src/analysis/AnalysisJobQueue.h:48-65 | Pushing a pending job again changes only its priority, to the more urgent of the two |
| AnalysisJobQueue.OthersStay | src/analysis/AnalysisJobQueue.h:43-77 | Other pending jobs stay in their level, unchanged |
| AnalysisJobQueue.PushShape | src/analysis/AnalysisJobQueue.h:52-74 | A push adds a job at the end of one level, or moves it from one level to the end of a more urgent one |
| AnalysisJobQueue.PushAddsOrDrops | src/analysis/AnalysisJobQueue.h:69-76 | A job that is not pending is added at the end of its level with the next sequence number, or dropped exactly when the queue is full |
| AnalysisJobQueue.PopServes | src/analysis/AnalysisJobQueue.h:79-102 | A pop serves the front job of its level, nothing exactly when nothing is pending, and passes over more urgent work only when the fairness interval is due |
| AnalysisJobQueue.StatsBalance | src/analysis/AnalysisJobQueue.h:54-102 | In any run every push was queued, deduplicated or dropped; without a clear, queued minus dequeued is the size |
| AnalysisJobQueue.MaintenanceGoesLast | src/analysis/AnalysisJobQueue.h:82-93 | A maintenance job is served if and only if no library job is pending and library work is overdue or nothing more urgent is pending |
| AnalysisJobQueue.LibraryWaitIsBounded | src/analysis/AnalysisJobQueue.h:79-102 | Under any pushes and pops, a library job with k ahead of it leaves its level within (k + 1) * (fairness + 1) pops |
| AnalysisJobQueue.MaintenanceCanStarve | src/analysis/AnalysisJobQueue.h:79-102 | With room for two jobs, a maintenance job stays pending through any number of pops when a library job is pushed before each |
| AnalysisJobQueue.MaintenanceAloneIsServed | src/analysis/AnalysisJobQueue.h:79-102 | With room for one job, a pending maintenance job is served by the next pop |
| BeatJump.JumpShifts | src/deck/DeckCueLoopController.cpp:223-263 | A jump moves the beat position by exactly its length, inside the grid and beyond both ends |
| BeatJump.JumpsCompose | src/deck/DeckCueLoopController.cpp:223-268 | Jumping by a and then b is jumping by a + b, and by 0 is staying; also on a tempo without beats |
| BeatJump.JumpGrows | src/deck/DeckCueLoopController.cpp:223-263 | Jumps are strictly monotone in start and length |
| BeatJump.JumpByTempo | src/deck/DeckCueLoopController.cpp:265-267 | Without two beats a jump moves the beat position by its length in beats of the tempo |
| BeatJump.ShiftNeedsGaps | src/deck/DeckCueLoopController.cpp:238-239 | On an increasing grid the shift law holds everywhere if and only if every gap is above 0.0001 seconds |
| BeatJump.TimeOfPosition | src/domain/BeatGridTiming.h:17-44 | The time of the beat position of a time is that time |
| BeatJump.PositionOfTime | src/domain/BeatGridTiming.h:17-44 | The beat position of the time of any beat number is that number |
| BeatJump.PositionIsInInterval | src/domain/BeatGridTiming.h:17-44 | The beat position of a time names the interval the time is in and how far into it, beyond both ends too |
| BeatJump.BarPhaseIsBeatPosition | src/domain/BeatGridTiming.h:46-53 | The bar phase is the beat position counted from the first downbeat, modulo four |
| BeatJump.PhaseIsOfFour | src/domain/BeatGridTiming.h:52-52 | A phase is the part of a bar of four beats that the position is in |
| BeatJump.BarJumpKeepsPhase | src/domain/BeatGridTiming.h:46-53 | Jumping by whole bars keeps the bar phase |
| BeatJump.QuantizedIsNearest | src/deck/DeckCueLoopController.cpp:193-201 | Quantizing gives a beat of the grid and none is nearer |
| BeatJump.QuantizedIsNearTempo | src/deck/DeckCueLoopController.cpp:202-204 | Without beats, quantizing gives a whole number of beats, at most half a beat away; without a tempo either, the time itself |
| BeatJump.NextBoundaryIsNext | src/deck/DeckCueLoopController.cpp:207-217 | The next boundary is the first beat more than 0.0001 seconds ahead; after the grid it is ahead by at most one beat |
| BeatJump.NextBoundaryAfterGrid | src/deck/DeckCueLoopController.cpp:213-216 | After the grid the boundaries go on from the last beat by its last gap |
| BeatJump.NextBoundaryByTempo | src/deck/DeckCueLoopController.cpp:218-220 | Without beats the next boundary is the first whole beat more than 0.0001 beats ahead |
| BeatJump.DurationAroundIsGap | src/deck/DeckCueLoopController.cpp:176-191 | On a grid with all gaps above 0.001 seconds the beat that snapping goes by is the gap the time is in |
| TempoTimeline.Timeline.Reset | src/audio/TempoTimeline.h:12-23 | A reset starts an empty track at the given position and rate |
| TempoTimeline.Timeline.SetTarget | src/audio/TempoTimeline.h:25-32 | A new target changes no scheduled rate or position |
| TempoTimeline.Timeline.Ensure | src/audio/TempoTimeline.h:34-49 | Scheduling appends exactly the generator's next rates, as far as asked |
| TempoTimeline.Timeline.Position | src/audio/TempoTimeline.h:51-58 | A position inside the window is that of the unbounded prefix sum |
| TempoTimeline.Timeline.Rate | src/audio/TempoTimeline.h:60-67 | A rate inside the window is that of the unbounded schedule |
| TempoTimeline.Timeline.Advance | src/audio/TempoTimeline.h:69-73 | Advancing keeps the window and the schedule |
| TempoTimeline.AppendPosition | src/audio/TempoTimeline.h:43-47 | Writing one position keeps the newest ring entries equal to the prefix sum, across wraps |
| TempoTimeline.PositionsStepByRate | src/audio/TempoTimeline.h:51-67 | Position of a frame plus its rate is the position of the next, before and after the origin |
| TempoTimeline.ScheduledStays | src/audio/TempoTimeline.h:34-58 | Later rates do not move earlier positions |
| TempoTimeline.RampIsStraight | src/audio/TempoTimeline.h:25-42 | A ramp lies on the line between its ends, never outside, and is at the target after exactly its length |
| TempoTimeline.ScheduleJoins | src/audio/TempoTimeline.h:34-49 | Scheduling in two pieces is scheduling at once |
| SamplerVoices.Sampler.Choose | src/audio/SamplerAudioEngine.cpp:281-289 | The voice chosen is the slot's own, else the first free one, else the oldest one-shot |
| SamplerVoices.Sampler.Render | src/audio/SamplerAudioEngine.cpp:312-395 | A block handles a panic, executes queued commands in order and lets every voice begin, fade or end |
| SamplerVoices.StepKeeps | src/audio/SamplerAudioEngine.cpp:183-395 | Every operation, releasing and preparing for a device included, keeps the invariant of slots, voices and commands |
| SamplerVoices.VoicesAndSlotsAgree | src/audio/SamplerAudioEngine.cpp:267-311 | In every reachable state a slot has at most one voice, held voices have the live sample, and a slot is Pending or Playing exactly when a voice holds it |
| SamplerVoices.StartOutcome | src/audio/SamplerAudioEngine.cpp:278-311 | Starting a slot begins to stop its looping or waiting voice, or gives it a fresh newest voice, or marks it busy, the last exactly when no voice holds it, none is free and all others loop |
| SamplerVoices.OnlyTheOldestIsTaken | src/audio/SamplerAudioEngine.cpp:286-290 | Another slot's voice is touched only when none is free; it is never looping and strictly the oldest one-shot |
| SamplerVoices.TriggersStartTheirSample | src/audio/SamplerAudioEngine.cpp:209-326 | A trigger executed any time later starts the sample its slot held when it was triggered, unless a sample was installed there meanwhile, equal or not: then it does nothing |
| SamplerVoices.BlockOutcome | src/audio/SamplerAudioEngine.cpp:336-395 | After the commands, voice by voice: waiting and stopping is freed without playing, not due stays, all others play, a one-shot that has ended stops, one that is stopping and has faded is freed; slots follow their voices, and slots without one stay |
| SamplerVoices.DrainIsInOrder | src/audio/SamplerAudioEngine.cpp:321-328 | Commands are executed oldest first, each on what those before left |
| SamplerVoices.StopOutcome | src/audio/SamplerAudioEngine.cpp:325-325 | A stop marks exactly the voices of its slot, or all |
| SamplerVoices.PanicOutcome | src/audio/SamplerAudioEngine.cpp:317-320 | A panic drops the commands that are there and stops all voices, once |
| SamplerVoices.InstallOutcome | src/audio/SamplerAudioEngine.cpp:209-219 | Installing frees the voices of its slot and no other, and replaces sample and generation |
| SamplerVoices.ReleaseOutcome | src/audio/SamplerAudioEngine.cpp:183-208 | Releasing frees all voices, makes held slots Ready and forgets all commands |
| SamplerVoices.RequestOutcome | src/audio/SamplerAudioEngine.cpp:227-237 | A trigger that does not fit is refused, a stop that does not fit becomes a panic, and all else is queued last |
| SamplerController.Controller.OnJobFinished | src/audio/SamplerController.cpp:187-226 | A completion commits, fails or is superseded as specified |
| SamplerController.StepKeeps | src/audio/SamplerController.cpp:61-226 | Every operation and callback keeps the invariant |
| SamplerController.FilesHaveOneOwner | src/audio/SamplerController.cpp:142-226 | Each asset file is named by one slot or owned by one unfinished job, no owned file is missing, and the saved bank names the slots' assets |
| SamplerController.LateJobsChangeNothing | src/audio/SamplerController.cpp:187-195 | A completion changes a slot only if the slot is exactly as it was when the job began |
| SamplerController.InTimeJobsCommit | src/audio/SamplerController.cpp:196-225 | A job that ends in time and succeeds becomes its slot and the bank, and the slot's old file is removed |
| SamplerController.SupersededMeans | src/audio/SamplerController.cpp:191-195 | A job is superseded if and only if its slot's generation moved on or the controller stopped; the editor session adds nothing |
| SamplerController.LoadingEnds | src/audio/SamplerController.cpp:180-226 | A slot shows loading if and only if its current job is unfinished |
| SamplerController.ShutdownLeavesNoOrphans | src/audio/SamplerController.cpp:61-76 | Right after shutdown exactly the slots' assets are left |
| SamplerController.ClearOutcome | src/audio/SamplerController.cpp:142-152 | A cleared slot is empty, and its asset is neither in the bank nor on disk; when the bank cannot be saved slot, bank and files stay; nothing else changes |
| SamplerController.LoadOutcome | src/audio/SamplerController.cpp:168-187 | Loading, capturing or editing begins one job for its slot and its content, imported unless it edits |
| SamplerController.CancelOutcome | src/audio/SamplerEditor.cpp:100-112 | Cancelling closes the editor and supersedes exactly the job it waits for |
| SamplerController.BeginOutcome | src/audio/SamplerEditor.cpp:76-94 | Beginning closes the editor before and opens one for the slot as it is, unless stopped or loading |
| SamplerController.ApplyOutcome | src/audio/SamplerEditor.cpp:154-167 | Applying begins one job of the session, imported exactly when its source is not the slot's own asset, and nothing when the slot moved on |
| SamplerController.ClearEditorOutcome | src/audio/SamplerEditor.cpp:175-182 | Clearing from the editor clears its slot and closes it, or leaves it open when the bank cannot be saved |
| SamplerController.FinishOutcome | src/audio/SamplerController.cpp:187-226 | What each kind of completion does to slot, bank, files and editor, and that it leaves the rest alone |
| SamplerController.ShutdownOutcome | src/audio/SamplerController.cpp:61-76 | Shutting down closes the editor and drops all jobs with their files, once |
| ControlClock.RateDeadline.Due | src/app/ControlClock.cpp:150-162 | A tick fires and moves the deadline as specified |
| ControlClock.FiringIsBounded | src/app/ControlClock.cpp:154-161 | After firing at t the deadline lies in (t, t + period + 1e-12] |
| ControlClock.DeadlinesKeepTheirRate | src/app/ControlClock.cpp:150-162 | For any ticks the deadline stays on the lattice of the first one, ahead of the last tick by at most a period and the tolerance |
| ControlClock.FiringsAreBounded | src/app/ControlClock.cpp:156-160 | The number of firings up to t is at most floor((t - first + 1e-12) / period) + 1 |
| SectionVersions.FromStorageString | src/analysis/AnalysisTypes.h:60-87 | Reading gives every section the number of its last valid field, or the legacy value if one has none |
| SectionVersions.ReadsInAnyOrder | src/analysis/AnalysisTypes.h:54-87 | Seven non-zero 32-bit numbers are read back from their fields in any order |
| SectionVersions.RoundTrip | src/analysis/AnalysisTypes.h:54-87 | Printed versions read back if and only if none is zero or all are |
| SectionVersions.NeverAMix | src/analysis/AnalysisTypes.h:63-86 | The result is the legacy value, or each number comes from a field of the string |

## Left out

- Memory ordering: all protocols assume sequential consistency, as the code's orderings on these variables are meant to provide.
- Floating point: doubles are exact reals, so rounding, infinities and not-a-number inputs of the beat and tempo arithmetic are not modelled; a float sample is a real or not finite.
- Word sizes: sequence numbers, generations and 64-bit counters do not wrap; the sampler ring's 32-bit cursors and the 32-bit lengths of a WAVE header do.
- StretchSeeding.SeedOwnership: excludes the disturbing claim of the stale reclaim, because the property fails after it, as DisturbingHarms and DisturbedRun show.
- SeedDecisions.SeedStartsAfterInterruption: speaks, as FedIsOneWindow does, of runs without the disturbing claim, because after it the worker can rebuild a pipeline while its seed is requested.
- PipelineTurns.ActiveIsWanted: excludes the disturbing claim, because the property fails after it, as DisturbedActivation shows.
- StretchSeeding: the track, seek and transport generations a seed is stamped with are one number; whether keylock is wanted and playback is on are free inputs; a pipeline fed by a read-ahead source gets arbitrary frames; wake-up tickets, parameter ramps and fades are not modelled. It is not claimed that every requested configuration is built.
- TimeStretchProcessor's signal processing: a stretcher records what it was fed; the libraries behind it are not part of this model.
- AudioParameters.ParameterStore: the copy constructors of parameter blocks and the writer's mutex are not modelled; two updates never overlap.
- SpscRing: the release path that empties the sampler ring from the control thread is a discard by the consumer, since no render drains it at that time; SamplerVoices has it as one step.
- ReaderGate: one control thread closes the gate at a time, as in the source.
- SetRecorder.PartsSplitAtMarks: excludes marks accepted behind what the writer is committed to, because the property fails for them, as StraddledIffInside and LateMarkEndsElsewhere show.
- SetRecorder.StraddledIffInside: says nothing on marks inside frames whose write failed, because those are not in any part.
- SetRecorder.PartsArePrefix: does not say that everything captured is written, because the writer loads the written position before it tests for the end.
- SetRecorder: a frame saved in part by a failed write is cut off at once; file names, peak levels, free space and the start and stop of recordings are not modelled; a failed header write leaves the header as it was. The multiplication by full scale is exact.
- TrackLoader.HeardLoadsLoseNothing: needs a completion for every load, because the property fails otherwise, as UnheardLoadLosesHandle shows.
- TrackLoader: the displayed load state, reading tags, decoding, waveform caches and the visual completions; two deck threads never call the same loader at once.
- AnalysisJobQueue.LibraryWaitIsBounded: speaks of library jobs only, because maintenance jobs have no such bound, as MaintenanceCanStarve shows.
- SamplerVoices: positions, envelopes, tails, gains and the preview voice; when a voice is due, has ended or has faded is an input. Calls that the gate keeps apart are single steps.
- SamplerController: names, colours, ranges and gains are one number; decoding, overviews, memory accounting and file probes are inputs. Restored banks are taken to name distinct assets that exist.
- SamplerController.ShutdownLeavesNoOrphans: speaks of the step of shutdown itself; a deck capture begun afterwards is not refused by the code and its file is removed only by its own completion.
- TempoTimeline.Timeline.Position: needs offsets above minus 32768 and at most 32768, the window the ring is made for.
- DeckCueLoopController: cue and loop slots, scheduled cue jumps; true but easy.
- RenderModeRouter, DeckTransport, controllers, library, settings and user interface: plumbing around the modelled core, or repetitions of its sequence lock.
