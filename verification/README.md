# FAST-LIVO2 timing, transactions and bookkeeping

This project models the parts of FAST-LIVO2 that decide *which data are used when, and what is kept*: the
IMU transactions around the estimator, the LIVO scheduler, the persistent landmark backend with its shadow
graph, the IMU interval buffer, the GNSS adapter, the camera-aligned logger, the counterfactual snapshot
format, the board assignment of markers that share an id, and the map guard. Linear algebra is not modelled:
propagation, filter updates, PnP, the incremental solver and geodetic conversions are parameters or oracles, so
every theorem holds whatever they answer.

`dafny verify dfyconfig.toml` checks everything.

## How to read it

Each component has a specification on values (`datatype` states and pure step functions), a class with the fields
of the C++ object whose methods are proved to realise those functions step by step, and lemmas about all runs of the
functions. A method that may throw returns an `Outcome`.

| files | component |
|---|---|
| `Outcomes.dfy` | optional values, exceptions |
| `ImuCoverage.dfy`, `ImuTransaction.dfy`, `EstimatorRuns.dfy` | sample selection, propagation, working checkpoint, runs |
| `ScanContract.dfy`, `ContractRuns.dfy` | scan lifecycle contract, and the sequences of calls it lets through |
| `LivoScheduler.dfy`, `LivoSchedule.dfy` | scheduler, runs of the scheduler |
| `CommittedFlight.dfy`, `PropagationChecks.dfy` | what is flown, committed, released and published; when propagation refuses |
| `SchedulerFront.dfy`, `SchedulerProgress.dfy`, `PassEffects.dfy` | the front end inside the scheduler, when a pass hands over an event, and what else it does |
| `LandmarkStore.dfy`, `ShadowGraph.dfy`, `LandmarkBackend.dfy` | keyposes and episodes, factor graph, queue and threads |
| `KeyPoseRule.dfy`, `GraphContents.dfy`, `SubmissionRules.dfy` | which observations make keyposes, what reaches the factor graph, and the answers to submissions |
| `ImuIntervals.dfy`, `IntervalReport.dfy` | the pruned IMU interval buffer, and what its reports say |
| `GnssTracker.dfy`, `GnssHistory.dfy`, `GnssAcceptance.dfy` | GNSS adapter, its runs, and what it accepts |
| `PoseBuffer.dfy`, `CameraLogger.dfy`, `LoggerRuns.dfy` | pose buffers, logger, runs of the logger |
| `SnapshotFormat.dfy`, `SnapshotRoundTrip.dfy`, `SnapshotStreams.dfy` | snapshot format, round trip, reader and writer |
| `BoardAssignment.dfy` | exhaustive slot assignment and its ambiguity gate |
| `MapGuard.dfy` | map-freeze guard |

## Where the code keeps less than it promises

Four properties are false of the code as written. For each the model keeps the code, gives a concrete failing input,
and proves exactly when the property holds.

- Coverage with repeated stamps. `view` rejects only decreasing stamps. Two equal stamps among the samples of a query
  (other than its last two) make a zero-length piece; then an image with support is blocked and a commit is refused.
  `CommitIffSpaced` gives the exact condition for one query and `RunThrowsIffStopped` for a run;
  `EqualStampsBlockTheScan` and `EqualStampsBlockRejectedImages` are concrete.
- No trace of a rejected query. The rollback does not restore the time of the last event, which admits the next event
  up to 1e-6 s before it, so rejected queries can walk that bound back (`RejectedImageWalksBack`).
  `RejectedQueriesVanish` says exactly when that matters, and `RejectedImagesVanish` that under the scheduler it never does.
- Images just behind the state. The drop loop of the scheduler tolerates 1e-6 s, `view` does not.
  `SpinThrowsIffBehind` says exactly when a pass throws and `RunThrowsIffBehind` when a run does;
  `GrazingRunThrows` is a concrete run. That no image lies within 1e-6 s below a scan end is sufficient
  (`RunsAreSafe`), though not necessary: an image just below the end of the initialisation scan is dispatched when the
  prior is anchored before it.
- Factor counters of the shadow graph. The factor kind is chosen by the emptiness of the graph, the counter by the
  presence of a motion, and a failing solver has been handed factors that are never counted. `CountersMatchIff` for one
  call and `CountersMatchOverRuns` for a run are exact; `RefusedFirstKeyposeMiscounts` and `SolverFailureMiscounts` are
  concrete.

Some branches are dead: the time-regression branch of `updateOrigin` (`RegressionNeverReachesOrigin`), the
missing-correction row of the logger (`MissingIsUnreachable`), the last three reasons of an IMU interval
(`LateReasonsAreDead`), the incomplete union of the propagation (`ThrowsIff`), and in `validateCompleted` the tests
for a second insertion and for a time that moved back (`KeptIffInOrder`).

## Model

| member | source | states |
|---|---|---|
| `ImuCoverage.View` | src/FAST_LIVO2/include/imu_transaction_interface.h:12-31 | for every buffer the answer is the samples after the state and not after the target in order, plus one look-ahead exactly when the rule asks for it; not ready when that look-ahead is missing; both exceptions |
| `ImuCoverage.FreshMembers` | src/FAST_LIVO2/include/imu_transaction_interface.h:17-23 | a sample is selected exactly when it was received and lies more than 1e-6 s after the persistent state |
| `ImuCoverage.TilesMeansOnce` | src/FAST_LIVO2/src/IMU_Processing.cpp:707-716 | the contiguity flag means that every time in (state, target] lies in exactly one piece and no piece reaches outside |
| `ImuCoverage.ViewChooses` | src/FAST_LIVO2/include/imu_transaction_interface.h:25-30 | what a ready `view` hands over: ordered own samples in (state, target], and a later sample only as right support |
| `ImuCoverage.SupportIsDeficiency` | src/FAST_LIVO2/src/IMU_Processing.cpp:482-497 | the deficiency UndistortPcl derives again from the samples alone is the same decision as the right_support of `view`, so the two look-ahead exceptions never fire |
| `ImuCoverage.DeficientIsUncovered` | src/FAST_LIVO2/include/IMU_Processing.h:106-109 | the deficiency test holds if and only if the three ordinary branches would leave some time between state and target uncovered |
| `ImuCoverage.ChosenTiles` | src/FAST_LIVO2/src/IMU_Processing.cpp:653-716 | the cut always ends at the target, and it covers the interval once, without gap or overlap, if and only if the own samples are spaced |
| `ImuCoverage.IncreasingIsSpaced` | src/FAST_LIVO2/src/IMU_Processing.cpp:692-711 | strictly increasing received stamps always give a spaced selection |
| `ImuTransaction.ImuProcess.Propagate` | src/FAST_LIVO2/src/IMU_Processing.cpp:626-716 | the loop flies exactly the pieces of the cut in order, extends the pose history by one node per piece, and its running flags equal contiguity, last end and total duration of the pieces |
| `ImuTransaction.ImuProcess.UndistortPcl` | src/FAST_LIVO2/src/IMU_Processing.cpp:477-817 | either the first applicable SHORT_IMU or ordering exception, or the propagated state, the carry (last sample that is not a look-ahead), the state time, the history and the coverage flag that says the pieces tile the interval |
| `ImuTransaction.ImuProcess.Close` | src/FAST_LIVO2/src/IMU_Processing.cpp:812-817 | the completeness flag is true exactly when the pieces cover the interval once; the duration test never decides anything on its own |
| `ImuTransaction.ContiguousTotal` | src/FAST_LIVO2/src/IMU_Processing.cpp:812-817 | contiguous pieces add up to the whole interval, so the 1e-12 closure test is implied |
| `ImuTransaction.ImuProcess.BeginLidarScan` | src/FAST_LIVO2/src/IMU_Processing.cpp:285-301 | the history restarts with one seed at the state time, which is seeded from the carry or the scan begin when it is not positive |
| `ImuTransaction.ImuProcess.UpdateLidarScanPose` | src/FAST_LIVO2/src/IMU_Processing.cpp:303-317 | the pose replaces the last node of the same time, extends the history, or is refused when it would move backwards |
| `ImuTransaction.ImuProcess.Restore` | src/FAST_LIVO2/src/IMU_Processing.cpp:166-208 | every causal field comes back from the snapshot; the coverage flag is left alone |
| `ImuTransaction.WorkingCheckpoint.Begin` | src/FAST_LIVO2/include/imu_transaction_interface.h:69-72 | a second open transaction is refused and changes nothing, a snapshot before the initialisation is refused and leaves none open; otherwise state, causal fields and coverage flag are kept |
| `ImuTransaction.WorkingCheckpoint.Finish` | src/FAST_LIVO2/include/imu_transaction_interface.h:73-78 | a measurement or scan commits only with complete coverage; anything else gives state, causal fields and flag back exactly as they were |
| `ImuTransaction.Release` | src/FAST_LIVO2/include/imu_transaction_interface.h:50-52 | exactly the leading samples that are not after the committed time are dropped |
| `EstimatorRuns.RejectedQueriesVanish` | src/FAST_LIVO2/include/imu_transaction_interface.h:65-79 | a run that raises nothing ends with the same front as the run without its rejected queries: same state, IMU fields, coverage flag, sample buffer and published odometry; exactly if the first commit lies more than 1e-6 s before the last event that came before the run, the shorter run is refused instead |
| `EstimatorRuns.RejectedImageWalksBack` | src/FAST_LIVO2/src/LIVMapper.cpp:2059-2083 | concrete run: a rejected image moves the time of the last event back, so that an image is accepted which is refused without it |
| `EstimatorRuns.ReleaseKeepsView` | src/FAST_LIVO2/include/imu_transaction_interface.h:50-52 | releasing at or before the state time changes no later selection, only how many samples remain releasable |
| `EstimatorRuns.ReadyQueryFlies` | src/FAST_LIVO2/src/IMU_Processing.cpp:482-507 | every ready query is flown to its target without any exception, and its coverage flag says whether the own samples are spaced |
| `EstimatorRuns.ScanPoseFits` | src/FAST_LIVO2/src/IMU_Processing.cpp:303-317 | the scan history always ends at the state time, so an image pose is never refused as older |
| `EstimatorRuns.CommitIffSpaced` | src/FAST_LIVO2/include/imu_transaction_interface.h:39-49 | every ready query goes through if and only if its own samples are spaced, or it is an image without support that is not accepted; otherwise an image with support is blocked before the update and everything else is refused as an invalid handoff |
| `EstimatorRuns.EqualStampsBlockTheScan` | src/FAST_LIVO2/include/imu_transaction_interface.h:20-21 | concrete input: `view` accepts two samples of one stamp, and the scan behind them then cannot commit |
| `EstimatorRuns.EqualStampsBlockRejectedImages` | src/FAST_LIVO2/src/LIVMapper.cpp:2218-2219 | the same input stops an image with support although it would be rejected, and lets one without support through |
| `EstimatorRuns.StepThrowsIffBlocked` | src/FAST_LIVO2/include/imu_transaction_interface.h:39-79 | with repeated stamps too, a transaction raises an exception if and only if its query is ready over samples that are not spaced and has anything to commit or to track; every other one flies exactly the time between the two states |
| `EstimatorRuns.HandleThrowsIff` | src/FAST_LIVO2/src/LIVMapper.cpp:2052-2110 | one event raises an exception if and only if it lies more than 1e-6 s before the last event, or its transaction blocks |
| `EstimatorRuns.RunThrowsIffStopped` | src/FAST_LIVO2/src/LIVMapper.cpp:2052-2110 | over every run with non-decreasing stamps and queries in any order an exception is raised if and only if some query is before the last event or blocks; a run that raises none covers its time exactly once |
| `EstimatorRuns.StepIsSafe` | src/FAST_LIVO2/include/imu_transaction_interface.h:39-79 | with strictly increasing stamps no transaction raises an exception, the invariant (carry not after state) is kept, and the committed pieces tile the time from the old to the new state |
| `EstimatorRuns.HandleIsSafe` | src/FAST_LIVO2/src/LIVMapper.cpp:2052-2110 | the same for one event that is not before the last one, and every flown query becomes the last event, committed or not |
| `EstimatorRuns.RunCoversTimeOnce` | src/FAST_LIVO2/src/LIVMapper.cpp:2052-2110 | over every run of arrivals, scan begins and accepted or rejected queries, none of them before the last event, no exception fires and the committed pieces cover time from first to last state exactly once |
| `EstimatorRuns.PublishedStampsIncrease` | src/FAST_LIVO2/src/LIVMapper.cpp:1930-1956 | published odometry stamps strictly increase and nothing published is taken back |
| `EstimatorRuns.PublishedAreCommitted` | src/FAST_LIVO2/src/LIVMapper.cpp:2148-2161 | every published message stems from a ready query of that stamp that committed and asked for it, and carries the state which that commit left |
| `EstimatorRuns.FrontEnd.ProcessImu` | src/FAST_LIVO2/src/LIVMapper.cpp:2052-2110 | refuses an event before the last one, opens the checkpoint, propagates the live fields, refuses a look-ahead that was not fully covered, and records the event time |
| `EstimatorRuns.FrontEnd.FinishRawOdometry` | src/FAST_LIVO2/src/LIVMapper.cpp:1922-1956 | the waiting message is published only after a commit and only when strictly newer, and is dropped otherwise |
| `EstimatorRuns.FrontEnd.EstimateAndMap` | src/FAST_LIVO2/src/LIVMapper.cpp:2112-2164 | the gate of an image over an incomplete prediction, the in-place update, commit or rollback, release and publication have the effect of one atomic transaction step |
| `EstimatorRuns.FrontEnd.ProcessQuery` | src/FAST_LIVO2/src/LIVMapper.cpp:2052-2164 | the object that propagates in place and rolls back refines the step in which a rejected query leaves no trace but the time of the last event |
| `ScanContract.LivoScanLifecycle.Begin` | src/FAST_LIVO2/include/livo_scan_lifecycle.h:23-38 | a scan begins only when the last required one had exactly one LIO, at most one insertion and monotonic time, and it has points and a positive duration |
| `ScanContract.LivoScanLifecycle.NoteImage` | src/FAST_LIVO2/include/livo_scan_lifecycle.h:40-45 | an image needs an open scan and a time not more than 1e-6 s behind the state |
| `ScanContract.LivoScanLifecycle.NoteLioTransaction` | src/FAST_LIVO2/include/livo_scan_lifecycle.h:47-56 | the one LIO of a scan must be at its endpoint and not behind the state |
| `ScanContract.LivoScanLifecycle.NoteMapInsertion` | src/FAST_LIVO2/include/livo_scan_lifecycle.h:58-65 | at most one insertion, after the LIO |
| `LivoScheduler.StaleFits` | src/FAST_LIVO2/src/LIVMapper.cpp:3731-3744 | the drop loop removes exactly the leading images older than the state by more than 1e-6 s |
| `LivoScheduler.LivMapper.ImageCallback` | src/FAST_LIVO2/src/LIVMapper.cpp:3551-3631 | an image is kept exactly when it is at least 20 ms newer than the last kept one |
| `LivoScheduler.LivMapper.OpenScan` | src/FAST_LIVO2/src/LIVMapper.cpp:3711-3729 | the front scan is opened once: lifecycle, first state time and scan history |
| `LivoScheduler.LivMapper.DropStaleImages` | src/FAST_LIVO2/src/LIVMapper.cpp:3731-3744 | drops the stale prefix of the image buffer and nothing else |
| `LivoScheduler.LivMapper.ConsumeImu` | src/FAST_LIVO2/src/LIVMapper.cpp:3796-3805 | the samples up to the event leave the buffer and those after the last update are handed over, in order |
| `LivoScheduler.LivMapper.AnchorPrior` | src/FAST_LIVO2/src/IMU_Processing.cpp:1014-1055 | carry, state time, rates and state come from the last sample and the prior, and the initialisation flag is cleared |
| `LivoScheduler.LivMapper.InitialiseImu` | src/FAST_LIVO2/src/IMU_Processing.cpp:1014-1055 | before initialisation completes the samples are consumed and the scan closed; on completion carry and state time are the same sample |
| `LivoScheduler.LivMapper.DispatchImage` | src/FAST_LIVO2/src/LIVMapper.cpp:3707-3838 | an image event leaves the buffer, passes the contract and becomes one transaction |
| `LivoScheduler.LivMapper.DispatchLidar` | src/FAST_LIVO2/src/LIVMapper.cpp:3707-3838 | the LiDAR event closes the scan, passes the contract and becomes one transaction |
| `LivoScheduler.LivMapper.HandOver` | src/FAST_LIVO2/src/LIVMapper.cpp:3776-3838 | the due event is handed over only once its samples are ready, as initialisation, image or LiDAR event |
| `LivoScheduler.LivMapper.SyncAndProcess` | src/FAST_LIVO2/src/LIVMapper.cpp:3707-3838 | one pass of the loop on the live objects equals one step of the scheduler specification, exceptions included |
| `LivoSchedule.SpinThrowsIffBehind` | src/FAST_LIVO2/src/LIVMapper.cpp:3731-3744 | under the invariant a pass raises an exception if and only if the due image lies before the persistent state |
| `LivoSchedule.RunThrowsIffBehind` | src/FAST_LIVO2/src/LIVMapper.cpp:3707-3838 | over every run of non-overlapping scans, increasing IMU stamps and arbitrary images an exception is raised if and only if some pass finds an image due that lies before the persistent state, and it is the one of `view` |
| `LivoSchedule.GrazingRunThrows` | src/FAST_LIVO2/src/LIVMapper.cpp:3731-3744 | concrete run from the start in which the 1e-6 s tolerance of the drop loop lets `view` throw |
| `LivoSchedule.CleanGoesForward` | src/FAST_LIVO2/src/LIVMapper.cpp:3707-3838 | without an image inside 1e-6 s below a scan end, the due event is never older than the last one |
| `LivoSchedule.AdvanceKeeps` | src/FAST_LIVO2/src/LIVMapper.cpp:3707-3838 | every admissible input (scan, image, IMU sample, pass) keeps the whole invariant and raises nothing |
| `LivoSchedule.RunsAreSafe` | src/FAST_LIVO2/src/LIVMapper.cpp:3707-3838 | no admissible run makes the scheduler, the transaction or the scan contract throw |
| `LivoSchedule.EventsAreOrdered` | src/FAST_LIVO2/src/LIVMapper.cpp:3707-3838 | event times never decrease; the LIO events are exactly the endpoints of the closed scans, one each and in order |
| `LivoSchedule.NoImageIsLost` | src/FAST_LIVO2/src/LIVMapper.cpp:3731-3744 | from the end of the initialisation scan on every image that left the buffer was dispatched, once and in order, and none older than the state stays behind |
| `LivoSchedule.ImagesComeBeforeScanEnd` | src/FAST_LIVO2/src/LIVMapper.cpp:3707-3838 | in every admissible run each image with a time inside a closed scan was dispatched, before the LiDAR event of that scan |
| `SchedulerFront.RunDrives` | src/FAST_LIVO2/src/LIVMapper.cpp:3707-3838 | after the initialisation every run of the scheduler drives the front end through the run over the arrivals, scan begins and dispatched events that it sees |
| `SchedulerFront.RejectedImagesVanish` | src/FAST_LIVO2/src/LIVMapper.cpp:3707-3838 | in every run of the scheduler, wherever the images lie, the front end ends as if the images rejected since any moment after the initialisation had never been dispatched |
| `LandmarkStore.ProcessedKeepsChain` | src/FAST_LIVO2/src/landmark_persistent_backend.cpp:139-254 | one accepted observation keeps ids, motions and nearest-neighbour chaining and adds its id to exactly one keypose |
| `LandmarkStore.FoldIsChained` | src/FAST_LIVO2/src/landmark_persistent_backend.cpp:168-252 | after any sequence keypose ids are 1..n, n-1 motions join neighbours, and the concatenated source ids are the processed sequence |
| `LandmarkStore.LookupFindsById` | src/FAST_LIVO2/src/landmark_persistent_backend.cpp:400-407 | lookup by position returns the keypose with that id, and none exactly when no keypose has it |
| `LandmarkStore.MotionsCompose` | src/FAST_LIVO2/src/landmark_persistent_backend.cpp:222-239 | over any group the motions from i to j compose to inverse(pose i) times pose j |
| `ShadowGraph.UpdatedKeepsShape` | src/FAST_LIVO2/src/landmark_shadow_graph.cpp:188-231 | whatever covariances, poses and the solver answer: one prior, a contiguous run of keyposes joined by exactly their motions, every landmark tied to one of them |
| `ShadowGraph.GraphIsConnected` | src/FAST_LIVO2/src/landmark_shadow_graph.cpp:188-231 | from every variable a walk along factors reaches the keypose with the one prior |
| `ShadowGraph.KeysAreDistinct` | src/FAST_LIVO2/src/landmark_shadow_graph.cpp:337-358 | no keypose, landmark or visual factor is handed to the solver twice |
| `ShadowGraph.StuckStaysStuck` | src/FAST_LIVO2/src/landmark_shadow_graph.cpp:144-168 | after a refusal on a non-empty graph every later call is refused and the solver is not touched |
| `ShadowGraph.RefusalSticks` | src/FAST_LIVO2/src/landmark_shadow_graph.cpp:144-168 | a refused new keypose leaves the graph in that state |
| `ShadowGraph.CountersMatchIff` | src/FAST_LIVO2/src/landmark_shadow_graph.cpp:337-358 | any call keeps the prior, motion and visual counters equal to the factors handed over, unless it reaches the solver and the solver fails, or it brings the first keypose of the graph with a motion; exactly then it does not |
| `ShadowGraph.RefusedFirstKeyposeMiscounts` | src/FAST_LIVO2/src/landmark_shadow_graph.cpp:188-217 | concrete calls: a refused first keypose makes the next prior count as a motion factor |
| `ShadowGraph.SolverFailureMiscounts` | src/FAST_LIVO2/src/landmark_shadow_graph.cpp:372-378 | concrete call: a solver failure leaves a handed-over prior uncounted |
| `ShadowGraph.MiscountStays` | src/FAST_LIVO2/src/landmark_shadow_graph.cpp:337-358 | a miscount is never made up for by a later call |
| `ShadowGraph.NewPairIff` | src/FAST_LIVO2/src/landmark_shadow_graph.cpp:128-143 | a visual factor brings a new (landmark, episode) pair exactly when the landmark is new or the call counts as reobservation |
| `ShadowGraph.UpdatedKeepsCount` | src/FAST_LIVO2/src/landmark_shadow_graph.cpp:289-358 | cross_episode_reobservation_count stays the number of distinct (landmark, episode) pairs minus the number of landmarks |
| `ShadowGraph.SparseLandmarkShadowGraph.Update` | src/FAST_LIVO2/src/landmark_shadow_graph.cpp:112-379 | every branch of update on the live sets and counters equals the specification, suppression and fail-stop included |
| `ShadowGraph.SparseLandmarkShadowGraph.Grow` | src/FAST_LIVO2/src/landmark_shadow_graph.cpp:184-379 | the try block: what the solver received even when it fails, and the bookkeeping only when it succeeds |
| `ShadowGraph.SparseLandmarkShadowGraph.RecordAccepted` | src/FAST_LIVO2/src/landmark_shadow_graph.cpp:337-358 | the sets, the episode history and the counters after a successful update |
| `ShadowGraph.SparseLandmarkShadowGraph.BuildFactors` | src/FAST_LIVO2/src/landmark_shadow_graph.cpp:188-231 | the batch: prior for the first keypose, motion for a later one, visual factor and landmark value when new |
| `LandmarkBackend.MemoryIsSound` | src/FAST_LIVO2/src/landmark_persistent_backend.cpp:139-275 | for every sequence of observations and kernel answers the graph keeps its shape, the reobservation count is exact, and the store is the plain fold |
| `LandmarkBackend.RefusalIsFinal` | src/FAST_LIVO2/src/landmark_persistent_backend.cpp:199-260 | once the newest keypose has been refused no later observation adds a variable or factor |
| `LandmarkBackend.RefusedKeyposeIsFinal` | src/FAST_LIVO2/src/landmark_persistent_backend.cpp:139-275 | over every sequence: when the non-empty graph refuses the new keypose of an observation, neither that observation, unless the solver failed on it, nor any later one adds a variable or factor |
| `LandmarkBackend.CountersMatchOverRuns` | src/FAST_LIVO2/src/landmark_persistent_backend.cpp:139-275 | over every sequence of observations and kernel answers the factor counters agree with the factors if and only if no observation miscounts |
| `LandmarkBackend.EveryScheduleIsOrdered` | src/FAST_LIVO2/src/landmark_persistent_backend.cpp:59-137 | over every interleaving of producers, worker and shutdown: accepted = done, then in flight, then queued, in order; the queue is bounded; times and ids are ordered and unique; reasons add up |
| `LandmarkBackend.JoinedMeansComplete` | src/FAST_LIVO2/src/landmark_persistent_backend.cpp:277-300 | when shutdown has returned the memory is the sequential fold over all accepted inputs |
| `LandmarkBackend.DrainProgresses` | src/FAST_LIVO2/src/landmark_persistent_backend.cpp:113-137 | after the stop request some worker step is possible until it has returned, each uses up one remaining step, and nothing else adds any |
| `LandmarkBackend.DrainEnds` | src/FAST_LIVO2/src/landmark_persistent_backend.cpp:113-137 | however a schedule goes on after the stop request, nothing more is accepted, and the worker has returned exactly when it has taken all remaining steps; then the memory is the fold over everything accepted |
| `LandmarkBackend.PersistentLandmarkBackend.Submit` | src/FAST_LIVO2/src/landmark_persistent_backend.cpp:59-98 | the reply is the first reason that applies, and only an accepted input changes queue, ids and time |
| `LandmarkBackend.PersistentLandmarkBackend.ObserveLandmark` | src/FAST_LIVO2/src/landmark_persistent_backend.cpp:145-167 | episode numbers, first and last times of the observed landmark |
| `LandmarkBackend.PersistentLandmarkBackend.PlaceKeyPose` | src/FAST_LIVO2/src/landmark_persistent_backend.cpp:199-252 | a new keypose with the motion from the last one, or the observation attached to the last one |
| `LandmarkBackend.PersistentLandmarkBackend.ProcessAccepted` | src/FAST_LIVO2/src/landmark_persistent_backend.cpp:139-275 | store and graph after one observation, including the call made to the graph |
| `LandmarkBackend.PersistentLandmarkBackend.ProcessOne` | src/FAST_LIVO2/src/landmark_persistent_backend.cpp:100-111 | takes exactly the front of the queue |
| `LandmarkBackend.PersistentLandmarkBackend.ShutdownAndDrain` | src/FAST_LIVO2/src/landmark_persistent_backend.cpp:277-300 | the queue is empty afterwards and the memory is the fold over what was queued |
| `ImuIntervals.IntegralIsAdditive` | src/FAST_LIVO2/src/fullstate_shadow_backend.cpp:75-88 | trapezoid integration of each of the six channels is an additive measure of the interpolated signal, and a segment weighs as much as its chord |
| `ImuIntervals.ChordSplits` | src/FAST_LIVO2/src/fullstate_shadow_backend.cpp:75-88 | cutting one chord of the signal at an interpolated point does not change its integral |
| `ImuIntervals.ExtractionIsIntegral` | src/FAST_LIVO2/src/fullstate_shadow_backend.cpp:90-179 | for every additive measure, so for acceleration·dt and angular-velocity·dt in each axis, the sum over the segments is the exact integral of the piecewise-linear signal over the interval |
| `ImuIntervals.ExtractedArea` | src/FAST_LIVO2/src/fullstate_shadow_backend.cpp:90-179 | that integral as a difference of the signal integral at the two ends |
| `ImuIntervals.AreaSuffix` | src/FAST_LIVO2/src/fullstate_shadow_backend.cpp:174-175 | pruning the front shifts every later integral by the same amount |
| `ImuIntervals.PruningKeepsBracket` | src/FAST_LIVO2/src/fullstate_shadow_backend.cpp:174-175 | pruning keeps a suffix whose first sample is not after the end: the left bracket of the next interval |
| `ImuIntervals.OwnedSuffix` | src/FAST_LIVO2/src/fullstate_shadow_backend.cpp:132-137 | a pruned sample is never owned by a later interval |
| `ImuIntervals.ExtractionIsFine` | src/FAST_LIVO2/src/fullstate_shadow_backend.cpp:143-172 | there are segments, each is positive and within the gap limit, and the durations close exactly |
| `ImuIntervals.FineSquares` | src/FAST_LIVO2/src/fullstate_shadow_backend.cpp:143-172 | the sum of squared durations is at most maximum_gap times the duration |
| `ImuIntervals.AscendingSorts` | src/FAST_LIVO2/src/fullstate_shadow_backend.cpp:161 | sorting the durations gives an ordered permutation of them |
| `ImuIntervals.FineMedian` | src/FAST_LIVO2/src/fullstate_shadow_backend.cpp:161-165 | the median step is positive and within the gap limit |
| `ImuIntervals.LateReasonsAreDead` | src/FAST_LIVO2/src/fullstate_shadow_backend.cpp:143-172 | the three reasons after the gap check are never given |
| `ImuIntervals.RunIntegrates` | src/FAST_LIVO2/src/fullstate_shadow_backend.cpp:423-435 | over any run of adds and extracts, for every additive measure, the integrals handed out add up to the integral of the unpruned signal between the first and the last node |
| `ImuIntervals.RunTakesFine` | src/FAST_LIVO2/src/fullstate_shadow_backend.cpp:423-435 | over any run every interval is fine, the numbers of owned samples add up to those of the full history, and every gap between the nodes is within the limit |
| `ImuIntervals.SamplesAreOwnedOnce` | src/FAST_LIVO2/src/fullstate_shadow_backend.cpp:423-435 | over any run the intervals join end to end, and each accepted sample between the first and the last node is owned by exactly one of them |
| `ImuIntervals.JoinedExtraction` | src/FAST_LIVO2/src/fullstate_shadow_backend.cpp:423-435 | one extraction over the joined interval on the full history is valid, gives the same sums and owns the same number of samples |
| `ImuIntervals.ImuIntervalBuffer.Push` | src/FAST_LIVO2/src/fullstate_shadow_backend.cpp:55-73 | a sample is appended exactly when its stamp is positive and later than the last |
| `ImuIntervals.ImuIntervalBuffer.FindBracket` | src/FAST_LIVO2/src/fullstate_shadow_backend.cpp:106-119 | the last sample not after the start and the first not before the end |
| `ImuIntervals.ImuIntervalBuffer.CheckGaps` | src/FAST_LIVO2/src/fullstate_shadow_backend.cpp:120-126 | true exactly when every neighbouring pair of the bracket is within the gap limit |
| `ImuIntervals.ImuIntervalBuffer.CollectKnots` | src/FAST_LIVO2/src/fullstate_shadow_backend.cpp:128-139 | both interpolated ends and every sample strictly between, with the number of owned samples |
| `ImuIntervals.ImuIntervalBuffer.BuildSegments` | src/FAST_LIVO2/src/fullstate_shadow_backend.cpp:141-156 | one segment per pair of knots, the accumulated squares and the durations, unless some segment is not positive |
| `ImuIntervals.ImuIntervalBuffer.Prune` | src/FAST_LIVO2/src/fullstate_shadow_backend.cpp:174-175 | pops the front while the second sample is not after the end |
| `ImuIntervals.ImuIntervalBuffer.Extract` | src/FAST_LIVO2/src/fullstate_shadow_backend.cpp:90-179 | all reasons in order, the interval with its median step, and pruning only on success |
| `GnssTracker.GnssAdapter.UpdateFixedState` | src/FAST_LIVO2/src/gnss_adapter.cpp:489-544 | the hysteresis on the live fields |
| `GnssTracker.GnssAdapter.UpdateOrigin` | src/FAST_LIVO2/src/gnss_adapter.cpp:596-650 | first-fixed or averaged origin: duplicate, gap and regression handling, the mean, and the cleared samples afterwards |
| `GnssTracker.GnssAdapter.AverageSamples` | src/FAST_LIVO2/src/gnss_adapter.cpp:642-645 | the loop computes the mean of the collected ECEF samples |
| `GnssTracker.GnssAdapter.Arrive` | src/FAST_LIVO2/src/gnss_adapter.cpp:812-867 | source change and time regression restart the state only while an averaged origin is pending; then the refusal reasons in order |
| `GnssTracker.GnssAdapter.Track` | src/FAST_LIVO2/src/gnss_adapter.cpp:871-936 | a forward gap resets the phase before the epoch is counted |
| `GnssTracker.GnssAdapter.Decide` | src/FAST_LIVO2/src/gnss_adapter.cpp:979-1010 | acceptance and the published position relative to the origin in force |
| `GnssTracker.GnssAdapter.ProcessPvt` | src/FAST_LIVO2/src/gnss_adapter.cpp:786-1037 | one epoch on the live object: state, filtered quality, acceptance and publication |
| `GnssHistory.CountersAreRuns` | src/FAST_LIVO2/src/gnss_adapter.cpp:489-544 | both saturating counters are the lengths of the current runs of fixed and non-fixed epochs |
| `GnssHistory.RunMeansConsecutive` | src/FAST_LIVO2/src/gnss_adapter.cpp:489-544 | a run of k is k fixed epochs in a row, with a gap at most before the first |
| `GnssHistory.LostRunMeansConsecutive` | src/FAST_LIVO2/src/gnss_adapter.cpp:489-544 | a lost run of k is k non-fixed epochs in a row, with a gap at most before the first |
| `GnssHistory.ActiveMeansConfirmed` | src/FAST_LIVO2/src/gnss_adapter.cpp:489-544 | the adapter is in the fixed phase if and only if a confirmation (the recovery count after an earlier one) was completed and since then there was no restart, no gap and no fixed_lost_count non-fixed epochs in a row |
| `GnssHistory.LostMeansBroken` | src/FAST_LIVO2/src/gnss_adapter.cpp:489-544 | after a first confirmation it is lost if and only if no fixed epoch came after the last break |
| `GnssHistory.RunFollowsMarks` | src/FAST_LIVO2/src/gnss_adapter.cpp:786-936 | over every run of messages the tracker is the one determined by the classified epochs |
| `GnssHistory.AcceptedFixedIsConfirmed` | src/FAST_LIVO2/src/gnss_adapter.cpp:979-1010 | over every run an accepted RTK-fixed epoch lies in a confirmed phase, passed the gates, follows no gap, and is published relative to the current origin |
| `GnssHistory.PublishedIsRelative` | src/FAST_LIVO2/src/gnss_adapter.cpp:979-1010 | over every run each published position, of whatever quality, is relative to the one origin of the run, however it goes on |
| `GnssHistory.OriginIsFinal` | src/FAST_LIVO2/src/gnss_adapter.cpp:596-603 | once set the origin never changes, whatever messages follow |
| `GnssHistory.LogIsHistory` | src/FAST_LIVO2/src/gnss_adapter.cpp:786-936 | the recorded marks of each message are those of the run up to it |
| `GnssHistory.OriginIsMeanOfConfirmed` | src/FAST_LIVO2/src/gnss_adapter.cpp:596-650 | over every run the pending average holds confirmed gate-passing fixed samples of one source, spaced by more than 1000 ns and at most the allowed gap, and an averaged origin is the mean of exactly origin_average_count of them |
| `GnssHistory.RegressionNeverReachesOrigin` | src/FAST_LIVO2/src/gnss_adapter.cpp:622-627 | the regression branch of updateOrigin is dead: processPvt restarts first |
| `PoseBuffer.FindLowerBound` | src/FAST_LIVO2/src/camera_aligned_neu_logger.cpp:95-101 | binary search finds the number of poses older than the stamp |
| `PoseBuffer.InsertOrReplace` | src/FAST_LIVO2/src/camera_aligned_neu_logger.cpp:95-105 | sorted insertion, replacing a pose of the same stamp |
| `PoseBuffer.PrunePoseBuffer` | src/FAST_LIVO2/src/camera_aligned_neu_logger.cpp:107-113 | pops the front while two poses are older than the window |
| `PoseBuffer.FindRawBracket` | src/FAST_LIVO2/src/camera_aligned_neu_logger.cpp:274-291 | the pose at the stamp, or its two neighbours |
| `PoseBuffer.LatestCausalPose` | src/FAST_LIVO2/src/camera_aligned_neu_logger.cpp:515-523 | the newest pose not after the stamp |
| `PoseBuffer.BracketMeans` | src/FAST_LIVO2/src/camera_aligned_neu_logger.cpp:274-291 | the bracket is one pose at the stamp or adjacent poses around it, and is missing exactly when the stamp lies outside all poses |
| `PoseBuffer.CausalMeans` | src/FAST_LIVO2/src/camera_aligned_neu_logger.cpp:515-523 | the correction is the newest not after the stamp, and is missing exactly when all are later |
| `PoseBuffer.HistoryIsLatest` | src/FAST_LIVO2/src/camera_aligned_neu_logger.cpp:95-105 | the unbounded history is sorted and holds exactly the last pose received at each stamp |
| `PoseBuffer.BufferIsWindow` | src/FAST_LIVO2/src/camera_aligned_neu_logger.cpp:95-113 | for any insertions, late and repeated stamps included, the pruned buffer is the window of the unbounded history |
| `PoseBuffer.PrunedAnswersLikeHistory` | src/FAST_LIVO2/src/camera_aligned_neu_logger.cpp:274-291 | from the oldest kept pose on, hence from the newest cutoff on, both queries answer like the unbounded history |
| `CameraLogger.CameraAlignedNeuLogger.WriteRow` | src/FAST_LIVO2/src/camera_aligned_neu_logger.cpp:293-362 | one turn of the drain loop: the decision in the order of its branches, the row and the counters |
| `CameraLogger.CameraAlignedNeuLogger.DrainPending` | src/FAST_LIVO2/src/camera_aligned_neu_logger.cpp:293-362 | the whole drain on the live queue |
| `CameraLogger.CameraAlignedNeuLogger.ImageCallback` | src/FAST_LIVO2/src/camera_aligned_neu_logger.cpp:211-223 | a stamp is queued after all equal or older ones |
| `CameraLogger.CameraAlignedNeuLogger.RawOdomCallback` | src/FAST_LIVO2/src/camera_aligned_neu_logger.cpp:225-236 | insertion, pruning and drain |
| `CameraLogger.CameraAlignedNeuLogger.MapToOdomCallback` | src/FAST_LIVO2/src/camera_aligned_neu_logger.cpp:238-255 | insertion, pruning and drain |
| `CameraLogger.CameraAlignedNeuLogger.Shutdown` | src/FAST_LIVO2/src/camera_aligned_neu_logger.cpp:199-208 | the forced drain of the destructor |
| `LoggerRuns.MissingIsUnreachable` | src/FAST_LIVO2/src/camera_aligned_neu_logger.cpp:341-352 | MISSING_MAP_TO_ODOM is never the decision |
| `LoggerRuns.DecisionNeedsNoHistory` | src/FAST_LIVO2/src/camera_aligned_neu_logger.cpp:293-362 | from both cutoffs on the pruned buffers give the same row as the unbounded histories |
| `LoggerRuns.EveryStampOnce` | src/FAST_LIVO2/src/camera_aligned_neu_logger.cpp:211-223 | at all times the received stamps are those of the rows and those pending, each as often as received |
| `LoggerRuns.CountersBalance` | src/FAST_LIVO2/src/camera_aligned_neu_logger.cpp:364-408 | received = rows + pending; rows = valid + the reason counts; the missing count stays zero |
| `LoggerRuns.ValidRowsAreJustified` | src/FAST_LIVO2/src/camera_aligned_neu_logger.cpp:293-362 | every valid row of the finished log was written by some event and shows the adjacent bracket and the newest correction that the full histories gave at that event, within the gap limit |
| `LoggerRuns.ForcedRowsAreInvalid` | src/FAST_LIVO2/src/camera_aligned_neu_logger.cpp:199-208 | the forced drain of the destructor writes no valid row |
| `LoggerRuns.PendingMustWait` | src/FAST_LIVO2/src/camera_aligned_neu_logger.cpp:293-362 | after every event each pending stamp really has to wait: the head never blocks a row that could be written |
| `LoggerRuns.ShutdownWritesAll` | src/FAST_LIVO2/src/camera_aligned_neu_logger.cpp:199-208 | at destruction nothing is pending and every received stamp has exactly one row |
| `SnapshotStreams.OutputStream.WriteValues` | src/FAST_LIVO2/src/landmark_counterfactual.cpp:67-76 | appends the section of these values |
| `SnapshotStreams.OutputStream.WriteGraph` | src/FAST_LIVO2/src/landmark_counterfactual.cpp:92-113 | appends the section, or fails exactly when some factor is unsupported |
| `SnapshotStreams.OutputStream.WriteSnapshot` | src/FAST_LIVO2/src/landmark_counterfactual.cpp:140-151 | appends the whole snapshot, or fails exactly when some factor is unsupported |
| `SnapshotStreams.InputStream.ReadValuesSection` | src/FAST_LIVO2/src/landmark_counterfactual.cpp:77-91 | the counted loop with count, key, family, rotation and duplicate checks |
| `SnapshotStreams.InputStream.ReadGraphSection` | src/FAST_LIVO2/src/landmark_counterfactual.cpp:114-135 | the counted loop with kind, key, rotation and covariance checks |
| `SnapshotStreams.InputStream.ReadAll` | src/FAST_LIVO2/src/landmark_counterfactual.cpp:153-179 | metadata, six sections, no trailing data, and the final graph checks, in order |
| `SnapshotRoundTrip.ValuesBack` | src/FAST_LIVO2/src/landmark_counterfactual.cpp:67-91 | reading a written values section gives it back and leaves exactly what followed, if and only if every entry passes the checks |
| `SnapshotRoundTrip.GraphBack` | src/FAST_LIVO2/src/landmark_counterfactual.cpp:92-135 | the same for a factor section |
| `SnapshotRoundTrip.WrittenReadsBack` | src/FAST_LIVO2/src/landmark_counterfactual.cpp:140-179 | reading a written snapshot gives it back if and only if it is well-formed |
| `SnapshotRoundTrip.TrailingIsRefused` | src/FAST_LIVO2/src/landmark_counterfactual.cpp:168-169 | anything after a written snapshot is refused |
| `SnapshotRoundTrip.AcceptedIsStable` | src/FAST_LIVO2/src/landmark_counterfactual.cpp:153-179 | whatever text the reader accepts, its snapshot is well-formed and survives writing and reading again |
| `SnapshotRoundTrip.AcceptMeans` | src/FAST_LIVO2/src/landmark_counterfactual.cpp:170-179 | the last checks pass exactly for disjoint values, finite errors and one candidate factor with the event keys |
| `BoardAssignment.RankIsLexicographic` | src/FAST_LIVO2/src/landmark_legacy_adapter.cpp:126 | the rank of a slot permutation follows lexicographic order |
| `BoardAssignment.NextPermutation` | src/FAST_LIVO2/src/landmark_legacy_adapter.cpp:126 | next_permutation moves to the very next permutation, and ends exactly at the last one |
| `BoardAssignment.SearchAssignments` | src/FAST_LIVO2/src/landmark_legacy_adapter.cpp:86-126 | the loop tries every injective slot assignment, each once, and keeps the best valid and best feasible one |
| `BoardAssignment.SecondError` | src/FAST_LIVO2/src/landmark_legacy_adapter.cpp:141-147 | the smallest error among the other assignments |
| `BoardAssignment.StandsOutAlone` | src/FAST_LIVO2/src/landmark_legacy_adapter.cpp:148-162 | an admissible assignment is the only one and a strict minimum over all that PnP could solve |
| `BoardAssignment.Associate` | src/FAST_LIVO2/src/landmark_legacy_adapter.cpp:81-170 | a pose is accepted if and only if some assignment stands out by gap and ratio, and then it is that pose; every other verdict exactly |
| `BoardAssignment.BySlotSorts` | src/FAST_LIVO2/src/landmark_frontend.cpp:432-476 | sorting by marker slot hands each detection to PnP once, in ascending slots |
| `BoardAssignment.OrderDoesNotMatter` | src/FAST_LIVO2/src/landmark_frontend.cpp:432-476 | for any order of the same detections the verdict is the same, and an admitted assignment is the reordered one with the same pose |
| `MapGuard.LioMapGuard.HandleFrame` | src/FAST_LIVO2/src/LIVMapper.cpp:2660-2740 | one frame on the live flags and counters, and whether its insertion is frozen |
| `MapGuard.NeverBoth` | src/FAST_LIVO2/src/LIVMapper.cpp:2676-2732 | the guard is never active and latched together, and off unless enforced |
| `MapGuard.FreezesPerActivation` | src/FAST_LIVO2/src/LIVMapper.cpp:2723-2738 | one activation freezes at most maximum_freeze_frames scheduled frames, for every stride |
| `MapGuard.FrozenInARow` | src/FAST_LIVO2/src/LIVMapper.cpp:2723-2738 | at most that many frames are frozen in a row |
| `MapGuard.LatchHolds` | src/FAST_LIVO2/src/LIVMapper.cpp:2685-2693 | after the hard limit nothing is frozen and the latch holds until a frame without a request |
| `MapGuard.FrozenIsJustified` | src/FAST_LIVO2/src/LIVMapper.cpp:2694-2738 | a frozen frame is on its map-update turn, in enforce mode, and some frame up to it made a request, the last one less than the recovery hysteresis ago |
| `CommittedFlight.PieceHasNeighbours` | src/FAST_LIVO2/src/IMU_Processing.cpp:655-669 | piece k of a ready cut starts at or after sample k of the carry and the selected samples and is flown with samples k and k + 1; it ends at or before sample k + 1 unless that is the last own sample |
| `CommittedFlight.OwnIsReceived` | src/FAST_LIVO2/include/imu_transaction_interface.h:17-23 | the own samples of `view` are exactly the received samples after the state and up to the target |
| `CommittedFlight.FlownWithNeighbours` | src/FAST_LIVO2/src/IMU_Processing.cpp:626-716 | every moment from the state to the target lies in one piece, flown with the two received samples next to it, or with the last two before the target |
| `CommittedFlight.CommitUpdatesState` | src/FAST_LIVO2/src/LIVMapper.cpp:2576-2586 | a commit leaves the state flown over its pieces, updated by the measurement exactly when that was accepted, with the first exposure |
| `CommittedFlight.CommitCarriesLastOwn` | src/FAST_LIVO2/src/IMU_Processing.cpp:747-771 | the carry afterwards is the last sample used that is not a look-ahead |
| `CommittedFlight.CommitClosesHistory` | src/FAST_LIVO2/src/LIVMapper.cpp:2148-2161 | a LiDAR commit closes the scan history, an image commit leaves it open |
| `CommittedFlight.CommitKeepsHistory` | src/FAST_LIVO2/src/IMU_Processing.cpp:303-317 | an image commit keeps the scan history, adds the state at the end of each piece, and puts the pose of the image in the place of the last |
| `CommittedFlight.CommitReleases` | src/FAST_LIVO2/include/imu_transaction_interface.h:50-52 | a commit keeps exactly the samples after its target, in order |
| `CommittedFlight.CommitPublishes` | src/FAST_LIVO2/src/LIVMapper.cpp:1922-1956 | a commit that was asked for raw odometry publishes the state it leaves, unless the stamp is not newer than the last published one |
| `CommittedFlight.RunPerforms` | src/FAST_LIVO2/src/LIVMapper.cpp:2112-2164 | over every run the final state is the fold of all flown pieces and all accepted measurements, in order |
| `SchedulerProgress.PassReportsImageIff` | src/FAST_LIVO2/src/LIVMapper.cpp:3746-3774 | a pass hands over an image exactly when it is the first one not stale, lies inside the scan, the look-ahead options are met or off, the newest IMU stamp reaches it within 1e-6 s, and `view` is ready |
| `SchedulerProgress.PassReportsEndIff` | src/FAST_LIVO2/src/LIVMapper.cpp:3746-3774 | a pass closes the scan exactly when no image is left inside it, a later one has come, and the samples for its end are there |
| `SchedulerProgress.PassesCloseScan` | src/FAST_LIVO2/src/LIVMapper.cpp:3707-3838 | once everything it waits for has arrived, a scan with n waiting images is closed after n + 1 passes, which hand over exactly those images in order and then the scan end |
| `SchedulerProgress.RunsCloseScans` | src/FAST_LIVO2/src/LIVMapper.cpp:3707-3838 | the same as the continuation of every admissible run |
| `KeyPoseRule.AddsKeyPoseIff` | src/FAST_LIVO2/src/landmark_architecture.cpp:62-64 | an observation adds a keypose exactly when there was none, the landmark is new or reappears after the episode gap, or it lies outside the coalescing limits and reaches the translation, rotation or interval threshold against the last keypose |
| `KeyPoseRule.KeyPosesAreSegments` | src/FAST_LIVO2/src/landmark_persistent_backend.cpp:193-252 | over every sequence keypose k has the time and pose of the observation of cut k, and gathered exactly the observations from there to the next cut |
| `KeyPoseRule.BetweenCuts` | src/FAST_LIVO2/src/landmark_persistent_backend.cpp:193-199 | between two cuts no landmark is new or reappears, and no observation lies beyond the limits of the one that made the keypose |
| `KeyPoseRule.CutsAreCaused` | src/FAST_LIVO2/src/landmark_persistent_backend.cpp:193-199 | every cut is the first observation, a new or reappearing landmark, or an observation beyond the limits of the cut before it |
| `KeyPoseRule.MotionsAreJudged` | src/FAST_LIVO2/src/landmark_persistent_backend.cpp:222-239 | the motion to a keypose is as valid as the kernels say for the observation that created it |
| `KeyPoseRule.EpisodesAreRecorded` | src/FAST_LIVO2/src/landmark_persistent_backend.cpp:145-167 | over every sequence the record of a landmark is its observations, the number of its last episode, and the first and last time of that |
| `GraphContents.CallHandsOver` | src/FAST_LIVO2/src/landmark_shadow_graph.cpp:184-231 | a call that gets to the solver hands over its keypose and, when eligible, its (keypose, landmark, episode) unless the solver holds them; any other call hands over nothing |
| `GraphContents.AcceptedIsHeld` | src/FAST_LIVO2/src/landmark_shadow_graph.cpp:218-231 | after an accepted call the solver holds its keypose and, when it was eligible, its visual factor and landmark |
| `GraphContents.AcceptedIff` | src/FAST_LIVO2/src/landmark_shadow_graph.cpp:112-182 | exactly which calls are accepted |
| `GraphContents.VisualsAreObserved` | src/FAST_LIVO2/src/landmark_shadow_graph.cpp:138-231 | over every sequence the visual factors are exactly the (keypose, landmark, episode) triples of the eligible observations whose call reached the solver |
| `GraphContents.KeyPosesAreCalled` | src/FAST_LIVO2/src/landmark_shadow_graph.cpp:188-217 | over every sequence the keyposes of the graph are exactly those whose call reached the solver |
| `GraphContents.CallMeans` | src/FAST_LIVO2/src/landmark_persistent_backend.cpp:255-266 | the call of an observation names its segment, is eligible when it begins the segment or lies inside its limits, and brings a motion exactly when it begins a later one |
| `IntervalReport.ReasonMeans` | src/FAST_LIVO2/src/fullstate_shadow_backend.cpp:90-126 | an interval is handed out exactly when it has a positive length, the gap limit is positive, the samples enclose it and no two neighbours around it lie too far apart; otherwise the reason names what is missing first |
| `IntervalReport.ReportedMedian` | src/FAST_LIVO2/src/fullstate_shadow_backend.cpp:158-165 | the median step is the middle duration, or the mean of the two middle ones: at least half of the durations lie on each side |
| `GnssAcceptance.ClassifiedIff` | src/FAST_LIVO2/src/gnss_adapter.cpp:812-913 | exactly the enabled, valid epochs more than 1000 ns after (or, where allowed, before) the last one are classified; each leaves one mark, after a restart where the source changed or time ran back during an average |
| `GnssAcceptance.AcceptedIff` | src/FAST_LIVO2/src/gnss_adapter.cpp:979-1010 | an epoch is accepted exactly when it is classified, follows no pause, passed the gates, has a quality that its own switch admits, lies in the fixed phase (RTK-fixed) or not in a recovery (others), and can be given relative to the origin |
| `GnssAcceptance.FilteredMeans` | src/FAST_LIVO2/src/gnss_adapter.cpp:917-968 | the reported quality is held at fixed in the fixed phase and at recovering in a recovery, and is otherwise that of the message if it passed the gates and is not an unconfirmed fix |
| `GnssAcceptance.FirstFixIsOrigin` | src/FAST_LIVO2/src/gnss_adapter.cpp:596-612 | the first gate-passing fix in the fixed phase becomes the origin in that mode; a manual origin is in force from the start or never |
| `GnssAcceptance.AnchorsJoinAverage` | src/FAST_LIVO2/src/gnss_adapter.cpp:613-650 | while an average is collected exactly the confirmed fixes that are new samples join it, and the one that completes it sets the origin to the mean if that is finite |
| `LoggerRuns.DecisionMeans` | src/FAST_LIVO2/src/camera_aligned_neu_logger.cpp:293-362 | a row is valid exactly when a correction not after the stamp exists and the raw poses around it are within the gap and interpolate to something finite; each reason and waiting exactly |
| `LoggerRuns.RowIsValidIff` | src/FAST_LIVO2/src/camera_aligned_neu_logger.cpp:293-362 | over every run a row written for a stamp inside both windows is valid if and only if the unbounded histories justify it |
| `LoggerRuns.SupportedIsNotPending` | src/FAST_LIVO2/src/camera_aligned_neu_logger.cpp:293-362 | no stamp inside both windows is left pending once the histories justify a valid row |
| `LoggerRuns.StatusIsLatest` | src/FAST_LIVO2/src/camera_aligned_neu_logger.cpp:257-266 | the logger remembers whether a backend status has come, and the last one |
| `MapGuard.FrozenIff` | src/FAST_LIVO2/src/LIVMapper.cpp:2676-2738 | a frame is frozen exactly when it is on its turn, in enforce mode, unlatched, requests it or is within the recovery of a request, and the activation has frames left; when it has none the guard latches, until a frame without a request |
| `MapGuard.RequestFreezes` | src/FAST_LIVO2/src/LIVMapper.cpp:2694-2738 | a request on its turn freezes the insertion unless the limit is latched or the activation has used up its frames |
| `CommittedFlight.RunKeepsSamples` | src/FAST_LIVO2/include/imu_transaction_interface.h:50-52 | over every run the buffer is everything received without some leading samples, none of them later than the state |
| `CommittedFlight.OpeningSeedsHistory` | src/FAST_LIVO2/src/IMU_Processing.cpp:285-301 | a scan opens its history with one node, the state at its own time; a state without a time gets that of the carry, or the scan begin |
| `PropagationChecks.ThrowsIff` | src/FAST_LIVO2/src/IMU_Processing.cpp:477-507 | whatever samples and request it is called with, UndistortPcl raises exactly the exception that applies; the incomplete union is never raised |
| `PropagationChecks.PoseMeans` | src/FAST_LIVO2/src/IMU_Processing.cpp:303-317 | the pose becomes the last node of the open history: it replaces the node of its own time within 1e-6 s, goes behind an older one, and is refused before a later one |
| `ContractRuns.KeptIffInOrder` | src/FAST_LIVO2/include/livo_scan_lifecycle.h:23-80 | any sequence of contract calls goes through if and only if each is in order: one LIO at the end of a required scan before the next, at most one insertion after it, no event more than 1e-6 s behind an earlier one |
| `PassEffects.ImageKeptIff` | src/FAST_LIVO2/src/LIVMapper.cpp:3551-3631 | an image is kept exactly when it is at least 20 ms later than every image kept before |
| `PassEffects.OpeningPass` | src/FAST_LIVO2/src/LIVMapper.cpp:3711-3744 | a pass that finds a scan to open leaves it open with a fresh contract, a history of one node, and exactly the images behind the state dropped |
| `PassEffects.InitPass` | src/FAST_LIVO2/src/IMU_Processing.cpp:1014-1055 | before the initialisation a pass closes the front scan once the newest sample reaches its end; its samples are consumed, and with a fresh one and sufficient statistics the prior is in force at the time of that sample |
| `PassEffects.InitPassThrowsIff` | src/FAST_LIVO2/src/IMU_Processing.cpp:1014-1055 | such a pass raises an exception exactly when the scan ends before the last update, or the sample that completes the statistics has no positive stamp |
| `PassEffects.EventIsNoted` | src/FAST_LIVO2/src/LIVMapper.cpp:3707-3838 | the contract of the open scan notes every event that a pass hands over, and the map insertion when there was one |
| `SubmissionRules.SubmitReplies` | src/FAST_LIVO2/src/landmark_persistent_backend.cpp:59-98 | in any schedule the answer is the first that applies: stop requested, not well made, id accepted before, behind an accepted one, as many waiting as the queue holds; otherwise accepted |
| `SubmissionRules.CountersCountReplies` | src/FAST_LIVO2/src/landmark_persistent_backend.cpp:59-98 | each counter is the number of times that answer was given |
| `SubmissionRules.ShutdownCompletes` | src/FAST_LIVO2/src/landmark_persistent_backend.cpp:277-300 | from any reachable state the worker can take steps of its own after the stop request until it has returned, and then shutdown returns with everything worked off |
| `GraphContents.RefusalsCount` | src/FAST_LIVO2/src/landmark_shadow_graph.cpp:112-186 | which calls count as suppressed, duplicate, rejected or broken, and when the graph is degraded or stops |
| `GraphContents.AdditionsCount` | src/FAST_LIVO2/src/landmark_shadow_graph.cpp:337-358 | which calls count as updates, and what they add to the factor counters |
| `GraphContents.CallRemembers` | src/FAST_LIVO2/src/landmark_shadow_graph.cpp:289-358 | the episode and last time remembered for a landmark |
| `IntervalReport.TakeSucceedsIff` | src/FAST_LIVO2/src/fullstate_shadow_backend.cpp:423-435 | after any run the next node gets an interval exactly when the whole history, pruned samples included, encloses it and spaces it within the limit |
| `IntervalReport.KeptIff` | src/FAST_LIVO2/src/fullstate_shadow_backend.cpp:55-73 | a sample is kept exactly when its stamp is positive and later than that of every one kept before, pruned ones included |
| `SnapshotRoundTrip.WellFormedMeans` | src/FAST_LIVO2/src/landmark_counterfactual.cpp:153-179 | the snapshots that survive writing and reading, written out: positive ids, sound sections of pose and landmark symbols and supported factors, disjoint values, finite errors, one candidate factor with the event keys |
| `BoardAssignment.StandsOutMeans` | src/FAST_LIVO2/src/landmark_legacy_adapter.cpp:148-162 | standing out in numbers: 3 px and twice the error with three markers, 1 px and one and a half times with four, against every other assignment that PnP could solve |

## Left out

- ROS, parameter loading, CSV and console output, and the telemetry strings of the results.
- Numerical kernels: propagation, filter update, deskewing, PnP, factor optimisation, geodetic conversion and pose
  interpolation are function parameters or per-input oracles.
- Floating-point rounding, NaN and the finiteness tests of inputs: stamps are exact reals or integers. Where a
  finiteness test decides a branch of the GNSS adapter, the logger or the snapshot reader it is a parameter.
- Buffer-overflow eviction in the callbacks, the deterministic-sort modes, ONLY_LIO, ONLY_LO and the hilti stride.
- The visual map, which a rejected query does not roll back, and the VIO gates other than the one on incomplete
  predictions; gravity alignment and snapState.
- The statistics of IMU initialisation: the event that completes them supplies the prior.
- Scans with at most one point, which stay at the front of the buffer.
- Conversion of stamps to integer nanoseconds and of GPS week and time of week; an event carries both.
- Classification and accuracy gates of a GNSS epoch (an epoch carries their result), the pose input of the adapter,
  and its reject reasons after classification.
- Reobservation diagnostics, snapshots taken by the graph, optimised estimates and the correction of the backend;
  calls of processOne from outside while a worker thread runs.
- The use of the duplicate and non-monotonic counters of the full-state shadow backend.
- Text below the level of whitespace-separated tokens: numbers that run into letters, which C++ extraction splits.
- The diagnostic counts and strings of the board assignment.
- ImuTransaction.WorkingCheckpoint.Finish: the refusal to commit a state with a non-finite entry is not modelled, because
  the kernels are taken to return finite states.
- ImuTransaction.WorkingCheckpoint.Begin: the refusals of a snapshot with the IMU disabled or on the first frame are not
  modelled, because both flags are settled before the first initialised query.
- LivoSchedule.RunsAreSafe: needs strictly increasing IMU stamps, non-overlapping scans and no image inside 1e-6 s below
  a scan end; `LivoSchedule.RunThrowsIffBehind` needs nothing of the images and says exactly when a run throws.
