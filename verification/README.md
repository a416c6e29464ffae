# Nova Calibrator verification

Nova Calibrator keeps two VR tracking systems aligned: an overlay measures a calibration, keeps it
current and stores it; a driver inside the VR server applies it to every pose. This project models
the parts of both whose logic is their own, apart from the runtime, the registry and the pipe they
talk to, and proves what they promise. `dafny verify dfyconfig.toml` checks all of it.

| file | what it models |
|---|---|
| PoseStreamHub.dfy | the bounded stream of poses and gap markers and its private cursors |
| Persistence.dfy | the two registry records that hold one transaction, and the load that recovers from a crash |
| Rotations.dfy | quaternion and rigid-transform algebra over exact reals |
| AlignmentField.dfy, FieldMath.dfy | the spatial correction field, as the driver and as the overlay blend it, and the correction that moves it |
| RuntimePose.dfy | the driver's pose pipeline and its slewing |
| RuntimeSnapshot.dfy | the driver's seqlock |
| DriverSync.dfy | the coalescing worker and the tracker of the driver's verdicts |
| DriverSession.dfy, FrameRecovery.dfy | one conversation with the driver, and the recovery of per-device corrections |
| HookTeardown.dfy | taking the driver's hooks down while threads are inside them |
| LagCorrelator.dfy | the time offset between two streams |
| FrameWatch.dfy, CalibrationRun.dfy | moves of the lighthouse side's frames, during play and during a measurement |
| JumpDetector.dfy | the evidence for a jump of the headset's universe |
| ContinuousDecisions.dfy | what continuous alignment decides, reading by reading, and the evidence for it |
| ContinuousAlignment.dfy | its streams and windows, the engine call by call, and the confirmation gate |
| LogTailer.dfy, JsonNesting.dfy | the log tailer and the JSON nesting guard |
| Counting.dfy, Common.dfy | sequences without repetition; what several modules share |

Doubles are exact reals, counters are unbounded, and a frame that "changed beyond epsilon" is a
frame that is not equal. `exp` is a positive function of its argument, `sqrt` is what it promises,
and trigonometry, window fits, robust averages and continuity tests enter as parameters. Threads
take sequentially consistent steps. Times are not negative.

## What the code does that its comments do not say

- `DrainThroughGaps` is described as draining until the consumer reaches the head. It makes at most
  64 passes, so a backlog in which 64 samples or more have a gap or a boundary right behind them is
  left short of the head even with nothing being published (`PoseStreamHub.PassLimitCanStopShort`);
  `PoseStreamHub.Hub.DrainThroughGaps` says exactly when it gets there.
- The revisions of the two registry records are meant to keep a room from one universe from being
  armed over a calibration from another. They do, from any state a load leaves, except after two
  kinds of load (`Persistence.StartedKeeps`, in both directions). With no Config and a Settings
  record that could not be read this once, the revision starts over and can come to match that
  Settings record again (`Persistence.LineageLostGoesWrong`). And when the repair at load lands its
  Config and not its Settings, the migration latch is set although Config is no longer the legacy
  record, which reverses the order of a later coupled write (`Persistence.HalfRepairGoesWrong`). In the
  run given for it the capture whose Settings could not be written leaves auto-apply off in memory,
  so the room that a later load wrongly keeps is one it would not put in place by itself.
- The frame watch takes a reported move for one it knows if it is among the last sixteen it recorded.
  A frame that moves, moves back and moves the same way again is therefore recorded twice, not three
  times, and a device that was away for the third move is given out as switched, not as moved
  (`FrameWatch.RepeatedMoveBecomesASwitch`); `FrameWatch.WhenAReportLeads` and
  `FrameWatch.RepeatedMoveIsMissed` say exactly when.
- The full-list branch for waiting inferences cannot be taken (`FrameWatch.InferenceFits`), nor can
  the refined peak of the correlator be a whole step away (`LagCorrelator.PeakShiftIsSmall`).

## Model

| member | source | states |
|---|---|---|
| PoseStreamHub.Hub.DrainAppend | Overlay/PoseStreamHub.cpp:108-205 | For every capacity, chunk size and publications between chunks, a drain returns one contiguous stretch of samples not delivered before, in order, and goes on to the head it found or up to a loss right behind its last sample; its loss is exactly the samples passed over and the source-gap counts passed, its hole the whole loss since the last sample delivered |
| PoseStreamHub.Hub.DrainThroughGaps | Overlay/PoseStreamHub.cpp:70-94 | Up to 64 drains, each exact in its own batch, loss and hole, and stopped only by one that brings nothing; the result is their samples joined, their losses added, the number that lost something and the largest whole hole; stopping early means that the head found was reached; with a quiet producer the head is reached exactly when the backlog is cut, a sample with a gap or boundary right behind it, in fewer than 64 places |
| PoseStreamHub.OneDrainPerCut | Overlay/PoseStreamHub.cpp:70-94 | Walking any backlog to the head takes one drain for every cut in it and one for what is behind the last |
| PoseStreamHub.NothingUnaccounted | Overlay/PoseStreamHub.h:71-94 | A cursor at the head that never discarded its backlog has every published sample either delivered or counted lost, and every source gap counted |
| PoseStreamHub.OpenHoleIsExact | Overlay/PoseStreamHub.cpp:144-201 | In every log the open hole is all that lies between the last delivered sample and the cursor but what a boundary threw away, and its flag is set exactly when a boundary lies behind that sample |
| PoseStreamHub.InOrderMeans | Overlay/PoseStreamHub.cpp:163-201 | What a consumer was delivered is an order-preserving, duplicate-free selection of the published samples |
| PoseStreamHub.BatchSurvives | Overlay/PoseStreamHub.cpp:163-201 | Publications made while a drain is between chunks change nothing about the batch it has so far |
| PoseStreamHub.RingAppend | Overlay/PoseStreamHub.cpp:213-251 | After any append each ring slot still holds the newest log entry that maps to it, so the ring is always the last `capacity` entries of the log |
| PoseStreamHub.CursorAppend | Overlay/PoseStreamHub.cpp:213-251 | An append leaves every cursor's accounting true without touching the cursor |
| PoseStreamHub.SegmentsAreCut | Overlay/PoseStreamHub.cpp:70-94 | A backlog of n one-sample segments behind gaps is cut in n - 1 places |
| PoseStreamHub.PassLimitCanStopShort | Overlay/PoseStreamHub.cpp:75-78 | For any number of segments above 64 and any hub that can hold them, a consumer that wakes to them is left short of the head by the pass limit, with nothing being published |
| PoseStreamHub.Hub.AccountForHistoryOverflow | Overlay/PoseStreamHub.cpp:43-58 | A lapped cursor is moved to the oldest retained entry and charged exactly the samples it passed; source gaps are left to be charged from the first entry retained |
| PoseStreamHub.Hub.CopyChunk | Overlay/PoseStreamHub.cpp:126-201 | One locked chunk extends the batch by samples only while nothing was lost between them, and stops at the first gap, overflow or boundary after a sample |
| PoseStreamHub.Hub.AppendSample | Overlay/PoseStreamHub.cpp:213-230 | One sample is appended to the log and the ring, evicting the oldest entry |
| PoseStreamHub.Hub.AppendGap | Overlay/PoseStreamHub.cpp:232-240 | One gap of the given count is appended |
| PoseStreamHub.Hub.AppendSessionBoundary | Overlay/PoseStreamHub.cpp:242-252 | One boundary is appended, counted as one lost pose, and every cursor's hole remembers it once passed |
| PoseStreamHub.Hub.DiscardBacklog | Overlay/PoseStreamHub.cpp:207-211 | A discard moves the cursor to the head and forgets the hole |
| Persistence.PlanPersistenceLoad | Overlay/PersistencePlan.h:76-181 | The plan filled by ordered, overwriting assignments is the field-by-field decision: a chaperone stays armed exactly when the records agree and its owner is complete and of the profile's system |
| Persistence.RecoverableIsSafe | Overlay/PersistencePlan.h:100-150 | A recoverable pair of records never lets a load arm a room from another rebase epoch than the calibration it read |
| Persistence.StartedKeeps | Overlay/Configuration.cpp:478-546 | Whatever is stored, a load itself is consistent, and it leaves memory in step with the registry if and only if it is neither of two cases: the revision started over below a Settings record that could not be read, or a repair whose Config write landed and Settings write failed |
| Persistence.AdoptedIsInStep | Overlay/Configuration.cpp:478-530 | Before any rewrite, what a load adopts is in step with the registry if and only if no Settings lineage was lost |
| Persistence.AfterKeeps | Overlay/PersistenceState.h:48-120 | Every rebase, solve, capture, edit, save and clear keeps memory in step and every image ever on disk recoverable, whichever of its writes fail |
| Persistence.RunKeeps | Overlay/PersistenceState.h:48-120 | The same over every sequence of them |
| Persistence.EveryLoadMatches | Overlay/Configuration.cpp:382-546 | Over every history of processes, each dying after any of its registry writes and with any writes failing, the next load arms no room from another epoch, as long as no start in between was one of the two unsound ones |
| Persistence.LineageLostGoesWrong | Overlay/PersistencePlan.h:142-148 | The first exception is real, whenever it occurs: after one unreadable start with no Config, solves alone, with no write failing, leave a Config and a Settings of one revision from different epochs |
| Persistence.HalfRepairPutsSettingsFirst | Overlay/Configuration.cpp:530-546 | After a half-finished repair the migration latch is set over a Config that has a revision, so a later coupled save can land Settings before Config |
| Persistence.HalfRepairGoesWrong | Overlay/Configuration.cpp:530-546 | The second exception is real: with no record ever unreadable, failing writes and one restart end in a Config and a Settings of one revision from different epochs |
| Persistence.SettingsWrittenKeeps | Overlay/Configuration.cpp:703-758 | A Settings write after its Config, failing or not, keeps every image recoverable and memory in step |
| Persistence.ConfigWrittenKeeps | Overlay/Configuration.cpp:570-634 | A Config write, with the migration's Settings write before it when one is pending, keeps every image recoverable and memory in step |
| Persistence.SettingsSavedKeeps | Overlay/PersistenceState.h:66-76 | The coupled save keeps them whichever half fails |
| Persistence.ClearedKeeps | Overlay/Configuration.cpp:641-655 | Clearing the calibration keeps them, newer settings flushed first |
| Persistence.SettingsWrittenExactly | Overlay/Configuration.cpp:703-758 | A Settings write succeeds exactly when both records were readable and it does not fail, and then alone Settings hold the live room and revision |
| Persistence.ConfigWrittenExactly | Overlay/Configuration.cpp:570-634 | A Config write succeeds exactly when the gate and a pending migration let it and its writes land; Config then holds what is live, and otherwise what it held |
| Persistence.SettingsSavedExactly | Overlay/PersistenceState.h:66-76 | Each half of the coupled save is reported saved exactly when it was, and a coupled Settings never goes out when its Config did not |
| Persistence.PendingSavedExactly | Overlay/Configuration.cpp:774-782 | A flush succeeds exactly when the gates let what is pending be written and no write fails; nothing is pending then |
| Persistence.ClearedExactly | Overlay/Configuration.cpp:641-655 | A clear succeeds exactly when the gates let pending Settings and Config be written and no write fails; Config is then gone from registry and memory, the pending Settings are stored, and no later start finds a calibration; a failed one leaves the calibration live |
| Persistence.SolvedExactly | Overlay/CalibrationSolve.cpp:455-494 | A solve is live at once, keeps exactly a room of its own baseline, and is stored when its writes land and pending when not |
| Persistence.CapturedExactly | Overlay/CalibrationSpace.cpp:834-920 | A capture puts the new room in place exactly when there was none or the one before could be switched off on disk first |
| Persistence.EventMeans | Overlay/PersistenceState.h:48-120 | What every other event makes of the live calibration, room, revision and marks |
| Persistence.RunHonest | Overlay/PersistenceState.h:48-120 | Through every sequence of events every live value is stored or marked as pending |
| Persistence.RestartRestores | Overlay/Configuration.cpp:382-546 | With nothing pending, a restart gives back exactly the calibration, room and revision that were live, and writes nothing |
| Persistence.FlushSurvives | Overlay/Configuration.cpp:774-782 | Whatever a session has been through, failed saves included: once both records are readable and the writes of a flush land, the flush succeeds and the next start has the calibration and the room that were live |
| Persistence.SolvedKeeps | Overlay/CalibrationSolve.cpp:455-494 | A fresh solve keeps them |
| Persistence.CapturedKeeps | Overlay/CalibrationSpace.cpp:834-920 | Capturing the room keeps them, the previous room saved as switched off before the new one takes its place |
| Persistence.Overlay.WriteSettingsRecord | Overlay/Configuration.cpp:703-758 | The method is the Settings write of the model, state for state |
| Persistence.Overlay.WriteConfigRecord | Overlay/Configuration.cpp:570-634 | The method is the Config write of the model, state for state |
| Persistence.Overlay.SaveSettingsRecords | Overlay/PersistenceState.h:66-76 | The method is the coupled save of the model, state for state |
| Persistence.Overlay.SavePendingChanges | Overlay/Configuration.cpp:774-782 | The method is the flush of the model, state for state |
| Persistence.Overlay.ClearSavedProfile | Overlay/Configuration.cpp:641-655 | The method is the clear of the model, state for state |
| Persistence.Overlay.RebaseUniverse | Overlay/CalibrationSpace.cpp:606-624 | Calibration and standing center move as one new coupled revision |
| Persistence.Overlay.RebaseChaperone | Overlay/CalibrationSpace.cpp:475-497 | With no calibration the standing center is carried alone as a new revision |
| Persistence.Overlay.CommitSolve | Overlay/CalibrationSolve.cpp:455-494 | The method is the solve of the model, state for state |
| Persistence.Overlay.CaptureChaperone | Overlay/CalibrationSpace.cpp:834-920 | The method is the capture of the model, state for state |
| Persistence.Overlay.LoadProfile | Overlay/Configuration.cpp:382-546 | The method is the load of the model, state for state |
| Rotations.MultiplyAssociative | Driver/PoseTransform.h:15-24 | Quaternion products associate |
| Rotations.NormMultiply | Driver/PoseTransform.h:15-24 | The norm of a product is the product of the norms |
| Rotations.RotateMultiply | Driver/PoseTransform.h:26-34 | Rotating by a product is rotating by its factors in turn, for any quaternions |
| Rotations.RotateAdd | Driver/PoseTransform.h:26-34 | Rotation is additive |
| Rotations.RotateScale | Driver/PoseTransform.h:26-34 | Rotation commutes with scaling |
| Rotations.RotateBack | Driver/PoseTransform.h:26-34 | The conjugate of a unit quaternion undoes its rotation |
| Rotations.MoveCarries | Overlay/CalibrationRun.h:76-80 | The delta of a frame change, composed after the old frame, is exactly the new one |
| AlignmentField.FloorHolds | Driver/AlignmentField.cpp:16-45 | The blended quaternion's scalar part never falls below the identity floor, so normalizing never divides by zero |
| AlignmentField.BlendReachesTheMean | Driver/AlignmentField.cpp:47-54 | The blended transform sends the query to the weighted mean of where the deltas send it |
| AlignmentField.BlendStaysInTheHull | Driver/AlignmentField.cpp:11-55 | On every side, the blended position lies no further out than the uncorrected one or the farthest single delta's |
| AlignmentField.NoAnchorsIsStill | Driver/AlignmentField.h:66-70 | With no anchors the blend is the identity |
| AlignmentField.BlendAt | Driver/AlignmentField.cpp:11-55 | The driver's accumulation loop computes that blend |
| FieldMath.AnchorDeltaReproduces | Overlay/FieldMath.h:28-40 | An anchor's delta applied after the base is the calibration solved at the anchor |
| FieldMath.ExpectedIsComposition | Overlay/FieldMath.h:42-89 | The overlay's expectation is the driver's blend composed after the base |
| FieldMath.BlendedFieldCalibration | Overlay/FieldMath.h:47-89 | The overlay's own loop over absolute anchors computes that expectation |
| FieldMath.BuildAlignmentField | Overlay/CalibrationDriver.cpp:32-60 | What is shipped are exactly the deltas of the first eight anchors, and nothing while disabled |
| FieldMath.YawKeepsDistance | Overlay/FieldMath.h:13-15 | A yaw and translation keep every horizontal distance the weights read |
| FieldMath.TurnedKeepsScalar | Overlay/FieldMath.h:13-15 | Conjugation keeps the scalar part, so the short way round stays the short way |
| FieldMath.BlendMoves | Overlay/FieldMath.h:13-15 | Moving every anchor by D moves the blend at the moved query to D blend D^-1 |
| FieldMath.ExpectedMoves | Overlay/FieldMath.h:13-15 | A yaw-plus-translation D of base and anchors moves the blended expectation by exactly D, for any anchors and any query |
| FieldMath.Calibration.ApplyCalibrationDelta | Overlay/CalibrationSpace.cpp:560-627 | A correction is checked whole, scale included, before anything changes: refused, nothing moved; accepted, base, every anchor and the room moved by it, with a new base generation and as a new coupled revision exactly when it snaps |
| RuntimePose.AppliedMovesWorld | Driver/PoseTransform.h:43-74 | Applying a transform moves the world position by it after scaling, and velocity and acceleration with it |
| RuntimePose.SlewLimitsTheDevice | Driver/AlignmentField.cpp:74-132 | A snap lands on the target; a slew moves the device straight towards it, never past it and within the speed limit, and keeps the rotation a unit one |
| RuntimePose.SlewGoesAsFarAsItMay | Driver/AlignmentField.cpp:95-131 | A step that stops short of the target has used up the speed limit or the turn limit exactly |
| RuntimePose.SlewLimitsTheTurn | Driver/AlignmentField.cpp:111-131 | A slew turns the device towards its target and not past it, and the sine of half the turn is at most half the angular limit, for any `acos` whose arcs are at least their chords |
| RuntimePose.EvalState.SlewTowardAt | Driver/AlignmentField.cpp:74-132 | The smoothing state is updated to that slew |
| RuntimePose.EvalState.Evaluate | Driver/AlignmentField.cpp:57-64 | The field layer slews towards the blend at the device's own position |
| RuntimePose.ApplyRuntimePose | Driver/RuntimePose.h:17-99 | The pose and both smoothing states become what the pipeline says; a disabled device is left alone and forgets both layers |
| RuntimePose.PipelineIsComposition | Driver/RuntimePose.h:17-99 | The output world position is field(base(scale * frame(raw))) |
| RuntimePose.SnappedAgreesWithOverlay | Driver/RuntimePose.h:17-99 | When both layers have just snapped, the device lands where the overlay's blend over the same anchors puts it |
| RuntimePose.UnusablePoseHolds | Driver/RuntimePose.h:47-52 | A pose that cannot be used leaves both layers, clocks included, as they were |
| RuntimeSnapshot.RuntimeStateReplacesAll | Driver/ServerTrackedDeviceProvider.cpp:203-221 | A runtime state replaces every slot and the field: each device then sees its own slot and that field |
| RuntimeSnapshot.DeviceTransformTouchesOneSlot | Driver/ServerTrackedDeviceProvider.cpp:171-178 | A single transform changes one device's view and nobody else's |
| RuntimeSnapshot.Provider.WriterStep | Driver/ServerTrackedDeviceProvider.cpp:171-221 | One store at a time: payload only changes while the counter is odd, and each committed memory is the one before with one whole transaction stored over it |
| RuntimeSnapshot.Provider.LoadSlot | Driver/RuntimeSnapshot.h:56-75 | Whatever is stored in between, the slot's scalars are one transaction's if the counter has not moved |
| RuntimeSnapshot.Provider.LoadField | Driver/RuntimeSnapshot.h:123-138 | The same for the field, and even a torn copy indexes only anchors that exist |
| RuntimeSnapshot.Provider.Read | Driver/RuntimeSnapshot.h:142-153 | Every read, accepted or last-good, is the slot and field of one committed transaction, never an older one than the device saw before; an accepted one is at least as new as the last commit before the call; a call no transaction begins or ends in is accepted, and so is one whose writer falls quiet between two transactions before the last attempt |
| DriverSync.AcceptedVerdictIsCurrent | Overlay/DriverSyncTracker.h:41-53 | Over every run, a verdict that is taken answers a state equal to the last one submitted, and is newer than the last one taken |
| DriverSync.HeldRefusalIsCurrent | Overlay/DriverSyncTracker.h:55-58 | A refusal is held exactly when the last verdict taken refused and no change was submitted since; it was given to the last state submitted, and nothing different was sent since |
| DriverSync.QuietIsAnswered | Overlay/DriverWorker.h:146-216 | With nothing held and nothing left to do, the last verdict answers the latest submission |
| DriverSync.WorkRunsOut | Overlay/DriverWorker.h:146-216 | Every step of worker and poll brings that nearer, and takes what is next: a neutralization first, then a state nothing holds back |
| DriverSync.NeutralizeHoldsStates | Overlay/DriverWorker.h:94-111 | From a neutralization until release or stop the worker takes no state, and once it has taken the neutralization none is in the driver |
| DriverSync.NeutralizesTheLastAsked | Overlay/DriverWorker.h:94-102 | The neutralization the worker takes is the last one asked for, with the devices of that call |
| DriverSync.CalibrationDriver.Submit | Overlay/DriverWorker.h:82-92 | A submission replaces one not yet taken, and says whether the driver's refusal of this same state stands |
| DriverSync.CalibrationDriver.Neutralize | Overlay/DriverWorker.h:94-102 | A neutralization holds states from this call on |
| DriverSync.CalibrationDriver.TakeWork | Overlay/DriverWorker.h:150-178 | Neutralizations first, then a state nothing holds back, and the end only when nothing is left |
| DriverSync.CalibrationDriver.PollCalibrationDriver | Overlay/CalibrationDriver.cpp:365-386 | Polling drains every completion, each verdict judged in turn |
| DriverSync.DriverSyncTracker.NoteSubmission | Overlay/DriverSyncTracker.h:25-34 | A changed state ends a held refusal |
| DriverSync.DriverSyncTracker.NoteVerdict | Overlay/DriverSyncTracker.h:45-53 | A verdict is taken exactly if it is at least as new as the last change of the submitted state |
| DriverSession.DriverSession.Apply | Overlay/DriverSession.h:175-303 | A batch is synchronized exactly when every reply accepted on one connection, the session is the one known or none was known, and no own checkpoint was refused; it then ended with a well-formed state that is what the result says it is, with the request's transform and field and its corrections or those recovered from an own answer of this batch; short of that everything comes back cleared with the cause of the first failure |
| DriverSession.DriverSession.SendRequest | Overlay/DriverSession.h:345-388 | A request succeeds exactly when its response accepts it and comes from the batch's connection |
| DriverSession.DriverSession.Continue | Overlay/DriverSession.h:205-303 | Behind a good handshake the batch asks for the corrections exactly when recovery is wanted, then ships the state |
| DriverSession.BoundGrows | Overlay/DriverSession.h:345-388 | The batch stays on one connection exactly when the next reply accepts and comes from it |
| DriverSession.DriverSession.DisableDeviceTransform | Overlay/DriverSession.h:307-321 | A disable on its own succeeds exactly when its response accepts it |
| DriverSession.DriverSession.Recover | Overlay/DriverSession.h:205-231 | What is recovered, or that nothing was, is what the driver answered in this exchange; an answer under the own profile key that cannot be recovered ends the batch |
| DriverSession.BuildState | Overlay/DriverSession.h:234-280 | Of an enabled result every slot is enabled, hidden, reference and target exactly as its decision says and no correction is parked in it, and the tracker is the last slot that decides it is one, unless a correction is parked there; everything is cleared exactly when calibration is off or the headset is another system's |
| DriverSession.OneTrackerIsTold | Overlay/DriverSession.h:246-257 | With one tracker in sight it is told, unless a correction is parked in its slot |
| DriverSession.AgreementIsSafe | Overlay/DriverSession.h:126-147 | The headset and a slot with a parked correction are never driven, and a tracker told is a driven slot |
| DriverSession.DeriveDriverSlotState | Overlay/DriverSession.h:126-147 | The masks are the slot decisions, and a mismatch is reported exactly when the headset's slot says so |
| DriverSession.RetireParked | Overlay/DriverSession.h:246-257 | Slots with a parked correction are taken out of every mask, and only those |
| DriverSession.ValidateStructure | Driver/ProtocolValidation.h:152-167 | The driver accepts exactly the states with hidden within enabled, a canonical transform header, and a field only with some slot enabled |
| FrameRecovery.RecoverTrackerFrames | Overlay/FrameRecovery.h:40-94 | A live device with a saved correction has it in its own slot, everything else is a saved correction parked where no live device is, in its own slot unless an earlier one had to move there, and none is lost while a slot is free or all identities fit; failure needs a foreign checkpoint or an invalid correction and leaves the outputs untouched |
| FrameRecovery.MatchLive | Overlay/FrameRecovery.h:49-70 | Every live device is given its own saved correction, whatever index it had |
| FrameRecovery.Park | Overlay/FrameRecovery.h:71-90 | The others are parked in slots no live device holds |
| FrameRecovery.NoRoomMeansTooMany | Overlay/FrameRecovery.h:78-83 | A correction finds no slot only when live and saved identities together exceed the slots |
| FrameRecovery.RecoveredMeansAllValid | Overlay/FrameRecovery.h:71-90 | While all identities fit, a recovery succeeds only if every saved correction is valid |
| FrameRecovery.KeysStayDistinct | Overlay/FrameRecovery.h:71-90 | With distinct live and saved keys no identity is in two slots, nor another's correction in a live device's slot |
| HookTeardown.TeardownReleasesTheDriver | Driver/InterfaceHookInjector.cpp:310-353 | For any number of threads and any interleaving, once DisableHooks has returned true no callback is inside the driver and none enters it before the next InjectHooks |
| HookTeardown.ReadyMeansHooked | Driver/InterfaceHookInjector.cpp:175-213 | A ready flag implies its hook is enabled; once teardown has returned none is set and no late installer can set one |
| HookTeardown.NothingEnters | Driver/InterfaceHookInjector.cpp:116-130 | With no driver stored and nobody inside, nobody gets in |
| HookTeardown.CallbackGoesThrough | Driver/InterfaceHookInjector.cpp:116-130 | A counted callback enters exactly when a driver is stored, and each step brings it nearer to the end of its guard, where the count falls |
| HookTeardown.InstallerGivesBack | Driver/InterfaceHookInjector.cpp:198-213 | An installer that holds the mutex is on its way to giving it back |
| HookTeardown.TeardownGoesOn | Driver/InterfaceHookInjector.cpp:310-353 | Every step of teardown brings it nearer its end but where it waits for the mutex or the callbacks, and it returns true exactly when nobody was counted |
| HookTeardown.TeardownDisablesEveryHook | Driver/InterfaceHookInjector.cpp:321-343 | A teardown nothing refuses ends with every hook disabled, whatever runs beside it |
| HookTeardown.InjectServes | Driver/InterfaceHookInjector.cpp:239-285 | An injection nothing refuses ends with the driver stored, the context hooked and requests accepted |
| HookTeardown.InstallHooksIt | Driver/InterfaceHookInjector.cpp:186-213 | A request for a binding that is not ready ends with its hook enabled and ready |
| HookTeardown.PoseKeeps | Driver/HookLifecyclePolicy.h:13-40 | The count is always the number of callbacks between their guard's ends |
| HookTeardown.InstallKeeps | Driver/InterfaceHookInjector.cpp:198-213 | An installer's second check under the mutex keeps late hooks out |
| HookTeardown.TeardownKeeps | Driver/InterfaceHookInjector.cpp:310-353 | Each step of teardown keeps the invariant |
| HookTeardown.InjectKeeps | Driver/InterfaceHookInjector.cpp:239-285 | Each step of injection keeps the invariant |
| LagCorrelator.BuildSpeedProfile | Overlay/CalibrationEngine.cpp:121-167 | Reported speeds are used unless more than one in twenty repeats; derived ones are the interval's average at its midpoint, the last one held |
| LagCorrelator.ProfileTimesRise | Overlay/CalibrationEngine.cpp:111-120 | Midpoint stamps keep the profile's times rising, and the last one is the stream's |
| LagCorrelator.CellsRise | Overlay/CalibrationEngine.cpp:186-191 | Later times are found in later cells, so a cursor never goes back |
| LagCorrelator.ResampleSpeed | Overlay/CalibrationEngine.cpp:177-213 | The one-pass cursor sweep gives what looking each time up on its own gives |
| LagCorrelator.LookupInterpolates | Overlay/CalibrationEngine.cpp:207-210 | Inside a cell the reading is the straight line between its ends |
| LagCorrelator.GridServesEveryLag | Overlay/CalibrationEngine.cpp:610-634 | Slot i of lag k's window is an in-bounds slot of the shared grid at the same time |
| LagCorrelator.SliceIsWindow | Overlay/CalibrationEngine.cpp:610-634 | The shared grid's slice for lag k is the reference resampled for that lag alone |
| LagCorrelator.GridInsideStreams | Overlay/CalibrationEngine.cpp:614-620 | The whole grid lies inside both streams, a slot short of the end |
| LagCorrelator.CorrelateAt | Overlay/CalibrationEngine.cpp:636-672 | The two passes over a slice compute its correlation |
| LagCorrelator.ScoreLags | Overlay/CalibrationEngine.cpp:628-681 | Every lag's score is the score of its own naive resampling, and the best offset is the first best lag |
| LagCorrelator.PeakShiftIsSmall | Overlay/CalibrationEngine.cpp:706-716 | The parabola through a peak and its neighbours has its top within half a step |
| LagCorrelator.PeakShiftIsTheTop | Overlay/CalibrationEngine.cpp:706-716 | The refined shift is where the parabola through a peak and its neighbours is highest |
| LagCorrelator.Refine | Overlay/CalibrationEngine.cpp:706-716 | The refined offset is the top of that parabola, within half a step of the peak, and the peak itself at either end of the range |
| LagCorrelator.PeakMargin | Overlay/CalibrationEngine.cpp:692-704 | The margin computed in one pass is that of the definition |
| LagCorrelator.MarginIsTheLead | Overlay/CalibrationEngine.cpp:692-704 | The margin is the whole lead over the best lag that is not next to the best one, and some such lag attains it; with no rival it is the best score |
| LagCorrelator.PlanSearch | Overlay/CalibrationEngine.cpp:560-612 | A search is planned exactly for streams in order, long enough, overlapping by half a second besides the range and within the budget |
| LagCorrelator.EstimateTimeOffset | Overlay/CalibrationEngine.cpp:560-724 | An offset is estimated exactly when the streams can be searched and some lag is the first best of the naive scores, correlates well enough and stands out; it is that lag refined to the top of its parabola, and never outside the range searched |
| FrameWatch.EveryChangeHasOneOutcome | Overlay/LighthouseFrameWatch.h:157-230 | Over every run each frame change has one outcome, is in exactly the list it names, once, keeps it, and a move is only dropped with the overflow flag set |
| FrameWatch.InferenceFits | Overlay/LighthouseFrameWatch.h:618-622 | One change waits per device, so the full-list branch is never taken |
| FrameWatch.InferredMoveIsBacked | Overlay/LighthouseFrameWatch.h:579-596 | Where recorded transitions lead from one frame to another, the transitions taken form a chain between them whose deltas compose to exactly the delta of the two frames |
| FrameWatch.EveryInferredMoveIsBacked | Overlay/LighthouseFrameWatch.h:550-623 | Over every run, an inferred move that becomes due was seen as its device's change in one of the run's events, and a chain of transitions recorded since that device was last seen in the old frame leads to the new one and makes up the move's delta |
| FrameWatch.WhenAReportLeads | Overlay/LighthouseFrameWatch.h:550-596 | For every watch, frames and mark: a report of a move leads a device from the one frame to the other exactly if the move is among the last sixteen and it was led there already, or it is not and what is kept leaves the device in the old frame or leads it to the new one |
| FrameWatch.ChainTelescopes | Overlay/LighthouseFrameWatch.h:579-596 | The deltas along a chain carry its first frame to its last |
| FrameWatch.RepeatedMoveIsMissed | Overlay/LighthouseFrameWatch.h:550-596 | In every run, a device last seen since the last recorded transition is led by a report of a move exactly when that move is not among the last sixteen recorded |
| FrameWatch.WhenAReturningDeviceIsLed | Overlay/LighthouseFrameWatch.h:157-230 | A device that comes back in another frame is given out as moved exactly if the recorded transitions lead there from its mark; if they do not, it waits or has switched |
| FrameWatch.EverySampleDecides | Overlay/LighthouseFrameWatch.h:157-230 | Every tracked sample settles or queues exactly the change it shows, as a move, a switch, a move led by the record or one that waits; records exactly a move that is new; and hands out, replaces, gives up or keeps each change that waited |
| FrameWatch.LostIsAway | Overlay/LighthouseFrameWatch.h:162-174 | A sample that does not track only marks a disconnected device as away |
| FrameWatch.ForgottenIsGone | Overlay/LighthouseFrameWatch.h:352-362 | Of a forgotten device nothing is queued or waits, and all else is as it was |
| FrameWatch.OverdueIsSettled | Overlay/LighthouseFrameWatch.h:665-673 | Exactly what has waited too long is given up, as a switch |
| FrameWatch.RepeatedMoveBecomesASwitch | Overlay/LighthouseFrameWatch.h:550-560 | For any two frames there are two runs from the start, alike but for a move and a move back before: in the first the returning tracker is given out as moved with its station, in the second as switched |
| FrameWatch.NotedKeeps | Overlay/LighthouseFrameWatch.h:157-230 | One sample keeps the books |
| FrameWatch.ForgotKeeps | Overlay/LighthouseFrameWatch.h:352-362 | Forgetting a device ends its pending changes and no other's |
| FrameWatch.LighthouseFrameWatch.Note | Overlay/LighthouseFrameWatch.h:157-230 | The method is the sample step of the model, state for state |
| FrameWatch.LighthouseFrameWatch.NoteTransition | Overlay/LighthouseFrameWatch.h:550-577 | The in-place pass hands out exactly the inferences the transitions now lead along |
| FrameWatch.LighthouseFrameWatch.LeadsTo | Overlay/LighthouseFrameWatch.h:579-596 | The loop follows the recorded moves |
| FrameWatch.LighthouseFrameWatch.InferMove | Overlay/LighthouseFrameWatch.h:598-623 | The device's waiting change is replaced by this one, which is then handed out or waits |
| FrameWatch.LighthouseFrameWatch.Expired | Overlay/LighthouseFrameWatch.h:665-673 | Changes waiting too long are settled as switches, in order |
| FrameWatch.LighthouseFrameWatch.TakeMoves | Overlay/LighthouseFrameWatch.h:301-306 | Taking the moves empties the list once |
| CalibrationRun.AcceptedKeeps | Overlay/CalibrationRun.h:61-89 | Each accepted sample keeps the way back the inverse of the moves, and the starting view of the current frame |
| CalibrationRun.AcceptedExactly | Overlay/CalibrationRun.h:61-89 | A sample is refused exactly when the frame changed under a path that went on in neither view; otherwise world points, or on a move the device's own path, are put back where they were |
| CalibrationRun.ToStartUndoesEveryMove | Overlay/CalibrationRun.h:53-56 | Through any samples, the way back is the inverse of all the moves, in order |
| CalibrationRun.PutBackIsStartPose | Overlay/CalibrationRun.h:91-98 | A world pose put back is the pose its local pose has in the starting frame |
| CalibrationRun.StartFrameStays | Overlay/CalibrationRun.h:61-89 | While the device keeps to one station, the starting view is the first frame itself |
| CalibrationRun.CarriedCalibrationAgrees | Overlay/CalibrationRun.h:100-106 | The carried calibration is C after the way back, for every scale and point |
| CalibrationRun.TargetFrame.Accept | Overlay/CalibrationRun.h:61-89 | The method is that step, state for state |
| CalibrationRun.TargetFrame.ToStart | Overlay/CalibrationRun.h:91-98 | Pose and derivatives are put back in place |
| CalibrationRun.TargetFrame.CarryCalibration | Overlay/CalibrationRun.h:100-106 | The carried calibration agrees with the solved one after the way back |
| JumpDetector.CollectVotes | Overlay/JumpDetector.cpp:524-555 | The headset anchors the vote, each device votes once, with its first candidate that may, and every device that has one votes |
| JumpDetector.TakeHeuristic | Overlay/JumpDetector.cpp:508-664 | A step is taken exactly when some headset candidate is due, by a second device that agrees or alone with a step that qualifies: the first that is due, as the mean of all votes, leaving none of its evidence; if none is, each candidate has waited on or died as it should |
| JumpDetector.VotesDecide | Overlay/JumpDetector.cpp:520-573 | The votes collected warrant a step exactly when one is due by the candidates as they were |
| JumpDetector.WaitsForItsDeadline | Overlay/JumpDetector.cpp:618-648 | A candidate not confirmed lives on exactly until agreement can no longer come at once, and with other devices active until its deadline |
| JumpDetector.LockedStillWaits | Overlay/JumpDetector.cpp:620-633 | The time left until the deadline does not shrink as long as the other devices are all locked still |
| JumpDetector.VotesAreDiscarded | Overlay/JumpDetector.cpp:597-618 | No vote outlives the step it was given for |
| JumpDetector.TakeExact | Overlay/JumpDetector.cpp:467-506 | A headset rebase is taken as it is, first of all, with one agreeing rebase of each other device at the same time |
| JumpDetector.JumpDetector.TryAccept | Overlay/JumpDetector.cpp:465-684 | A delta comes out exactly when an exact headset rebase is live or a headset candidate is due, and then exactly one; each delta so far is a step of its own voters, the headset's first and one of each other device, that agree in time, and no candidate votes in two; exactly what is still of use is kept |
| JumpDetector.ChainExtends | Overlay/JumpDetector.cpp:235-258 | A pure-yaw rebase delta carries the chain from the first headset frame on to the newest |
| JumpDetector.JumpDetector.Push | Overlay/JumpDetector.cpp:94-233 | While the headset's samples continue, its frame is the emitted exact deltas applied to the frame the chain began in, and every change adds exactly the delta sent out |
| JumpDetector.JumpDetector.DetectDiscontinuity | Overlay/JumpDetector.cpp:270-315 | A candidate is added exactly if no live one of the device is closer than a window |
| JumpDetector.JumpDetector.EvaluatePendingCandidates | Overlay/JumpDetector.cpp:317-455 | Exactly the candidates whose window has filled become ready with what the fit gives, or die; nothing else of any candidate changes |
| JumpDetector.JumpDetector.BreakContinuity | Overlay/JumpDetector.cpp:97-109 | A bad frame ends the device's frame pair and kills exactly its heuristic candidates |
| JumpDetector.JumpDetector.NoteStreamHole | Overlay/JumpDetector.cpp:720-731 | A hole ends every device's frame pair and kills exactly the heuristic candidates whose window was still filling |
| ContinuousAlignment.EveryChangeRests | Overlay/ContinuousAlignment.cpp:198-1068 | In every run from a new engine, whatever the calls: a waiting correction means eligible, Tracking and no unresolved jump candidate; the record is in the order of its times; each update does exactly what is due; and each call's changes rest on evidence that reaches to the call's own time: a freeze on six unbroken seconds beyond the band, its end on readings back inside for five or thirty, on a re-anchor, an undo or the caller breaking off |
| ContinuousAlignment.UpdatedExactly | Overlay/ContinuousAlignment.cpp:890-976 | An update evaluates exactly when the tracker is mounted, its last observation fresh, the last evaluation long enough ago and the window full enough, and then decides exactly what is due, an unresolved jump candidate holding a correction back; what it does otherwise is exact too |
| ContinuousAlignment.DueCorrectionIsSent | Overlay/ContinuousAlignment.cpp:628-667 | A due evaluation of a quiet reading in the band, not frozen and with no jump candidate, leaves a correction exactly when yaw or displacement is past its deadband, and it is the largest allowed part |
| ContinuousAlignment.MaintainedExactly | Overlay/ContinuousAlignment.cpp:228-399 | Before it, a confirmed jump breaks the record, a step held back or a thin window withdraws what waits, and nothing else is touched |
| ContinuousAlignment.PushedExactly | Overlay/ContinuousAlignment.cpp:198-226 | A sample out of order is dropped, one past a gap restarts everything, any other is appended |
| ContinuousAlignment.ResetExactly | Overlay/ContinuousAlignment.cpp:1027-1068 | A reset, and a re-solved target, empty the streams and restart the decisions |
| ContinuousAlignment.CalledKeeps | Overlay/ContinuousAlignment.cpp:198-1068 | One call keeps the engine valid; a re-anchor needs thirty unbroken seconds of a deviation that stands still, an undo five of readings that fit what was replaced, and a correction a calm reading inside the band |
| ContinuousDecisions.DecidedExactly | Overlay/ContinuousAlignment.cpp:444-763 | One evaluation, whatever it reads, keeps every mark what the record says and does exactly what is due: it corrects, freezes, resumes, re-anchors and undoes exactly when the evidence is complete, and withholds everything from noise and an unsettled target |
| ContinuousDecisions.DuesAreRuns | Overlay/ContinuousAlignment.cpp:555-740 | A freeze, a resume and an undo are due exactly when some unbroken run of readings has shown what they ask for long enough; a re-anchor only on thirty seconds of an estimate that stood still |
| ContinuousDecisions.StandIsFound | Overlay/ContinuousAlignment.cpp:714-763 | And a re-anchor is due once an estimate that could be followed has stood still that long since evidence last started over |
| ContinuousDecisions.DuesExclude | Overlay/ContinuousAlignment.cpp:444-763 | At most one of freeze, resume, undo, re-anchor, follow and correction is due at a time |
| ContinuousDecisions.TriedIs | Overlay/ContinuousAlignment.cpp:670-763 | A try undoes exactly when readings that fit what was replaced have lasted, back to exactly that calibration, and re-anchors exactly when an estimate has stood still for long enough; otherwise it leaves the calibration |
| ContinuousDecisions.ReanchorIsUnblamed | Overlay/ContinuousAlignment.cpp:714-763 | A re-anchor needs visible restarts, and none of them to blame or a later solution that reads the same |
| ContinuousDecisions.SuspectedExactly | Overlay/ContinuousAlignment.cpp:607-632 | Beyond the band nothing is corrected, and the state turns Frozen exactly when the run of such readings has lasted its six seconds |
| ContinuousDecisions.CorrectedExactly | Overlay/ContinuousAlignment.cpp:644-667 | Inside the band a correction waits exactly when yaw or displacement is past its deadband, and it is the largest allowed part |
| ContinuousDecisions.ResumedExactly | Overlay/ContinuousAlignment.cpp:555-606 | A freeze whose run back inside has lasted ends, and nothing else happens |
| ContinuousDecisions.CoastedExactly | Overlay/ContinuousAlignment.cpp:909-926 | Without a fresh observation what was followed is lost from sight and a freeze stays |
| ContinuousDecisions.PartIsTheLargestAllowed | Overlay/ContinuousAlignment.cpp:650-658 | The part of a deviation that a correction takes is the largest, up to all of it, that keeps yaw and displacement within their limits |
| ContinuousDecisions.PartWayMovesTheHead | Overlay/ContinuousAlignment.cpp:660-667 | A correction moves the head by exactly that part of its deviation, whatever it turns |
| ContinuousDecisions.DeltaPutsTheHead | Overlay/ContinuousAlignment.cpp:781-802 | A re-anchor puts the head where the estimate has it, and with a large tilt replaces the calibration by the estimate itself |
| ContinuousDecisions.RestartKeeps | Overlay/ContinuousAlignment.cpp:1027-1060 | A gap keeps a freeze and what an undo restores; any other reset keeps neither; no mark survives either |
| ContinuousDecisions.SwitchedKeeps | Overlay/ContinuousAlignment.cpp:804-822 | Switching modes ends a freeze and forgets what an undo would restore, every mark and the blame |
| ContinuousAlignment.FormFromKeeps | Overlay/ContinuousAlignment.cpp:228-356 | Targets are processed in order up to the first whose reference is missing; what is kept stays a tenth of a second apart; a candidate is only left unresolved if one was held, and a confirmed jump empties both windows |
| ContinuousAlignment.TrimDropsTheExpired | Overlay/ContinuousAlignment.cpp:358-399 | Live reference samples, live and unprocessed targets and observations each lose exactly what is older than their window, compacted or not |
| ContinuousAlignment.ContinuousAlignment.Update | Overlay/ContinuousAlignment.cpp:890-976 | The update of the engine in place, state for state; from a valid engine it does exactly what is due, and all of it rests on evidence |
| ContinuousAlignment.ContinuousAlignment.FormObservations | Overlay/ContinuousAlignment.cpp:228-356 | The loop forms exactly the observations of the processed targets, and withdraws a correction or every mark as the model does |
| ContinuousAlignment.ContinuousAlignment.TakeObservation | Overlay/ContinuousAlignment.cpp:284-354 | A single step waits as a candidate, and only a later one a tenth of a second on that agrees with it confirms |
| ContinuousAlignment.ContinuousAlignment.TrimWindows | Overlay/ContinuousAlignment.cpp:358-381 | The cursor loops trim as the model does |
| ContinuousAlignment.ContinuousAlignment.Decide | Overlay/ContinuousAlignment.cpp:444-668 | The in-place decision is the evaluation of the model, state for state |
| ContinuousAlignment.ContinuousAlignment.TryReanchor | Overlay/ContinuousAlignment.cpp:670-763 | The in-place try is that of the model: nothing, one re-anchor, or one undo |
| ContinuousAlignment.ContinuousAlignment.Reset | Overlay/ContinuousAlignment.cpp:1027-1060 | The reset in place, streams and decisions |
| ContinuousAlignment.ContinuousAlignment.SetFollowMode | Overlay/ContinuousAlignment.cpp:804-822 | The switch in place: episode, re-anchor and undo marks and the blame included |
| ContinuousAlignment.CorrectionGate.Take | Overlay/ContinuousCorrectionGate.h:27-47 | With confirmation asked for, a correction is only taken on a pull after the trigger was seen released since it came in |
| ContinuousAlignment.CorrectionGate.Offer | Overlay/ContinuousCorrectionGate.h:18-25 | The newest correction waits, and whether the trigger was released since the first is kept |
| ContinuousAlignment.HandleContinuousOutput | Overlay/ContinuousCorrectionGate.h:79-115 | A re-anchor is applied at once; what is applied or waits is the newest correction, none from before a re-anchor and only while the engine allows it; it is applied exactly when no confirmation is asked for or a fresh press confirms it |
| LogTailer.LinesRoundTrip | Overlay/LighthouseLog.cpp:440-457 | The lines with their newlines and the unfinished rest are the text again |
| LogTailer.LinesAreThere | Overlay/LighthouseLog.cpp:440-457 | Each line is where it says, holds no newline, and is historical exactly when it starts below the replay end |
| LogTailer.LinesAppend | Overlay/LighthouseLog.cpp:436-457 | Reading on needs only the unfinished line |
| LogTailer.Tailer.Feed | Overlay/LighthouseLog.cpp:421-457 | One read of any length adds exactly the lines it completes |
| LogTailer.Tailer.Poll | Overlay/LighthouseLog.cpp:381-458 | Of a file that only grows, all polls together give its whole lines from the first one entered, once each and in order, however it grew and however short the reads |
| LogTailer.ChunkingIsInvisible | Overlay/LighthouseLog.cpp:381-458 | Two ways of polling that have read the same bytes gave the same lines |
| JsonNesting.GuardIsExact | Overlay/JsonNesting.h:20-48 | For every JSON text the guard accepts exactly when the value nests at most sixteen deep |
| JsonNesting.RejectExcessiveJsonNesting | Overlay/JsonNesting.h:20-48 | The one-pass loop is that scan |
| JsonNesting.QuotedIsNeutral | Overlay/JsonNesting.h:25-35 | A string, escapes included, leaves the scan where it was |
| JsonNesting.ValueThrough | Overlay/JsonNesting.h:37-46 | A value takes a scan at any depth back to that depth, or is too deep for it |

## Left out

- Rounding, overflow of counters (revisions, sequence numbers and the seqlock counter do not wrap) and the C++ memory model weaker than sequential consistency.
- The numeric solver: Kabsch, the robust averages, the joint refinement, the motion gain and `InterpolateAt`; only the time-offset search is modelled.
- Win32, OpenVR, MinHook, the pipe and shared memory: only their success, failure and answers, as parameters.
- Preview mode, the debounce clocks (`Due`, `Retry`), the import of an older product name's records, error banners and logs.
- Persistence.EveryLoadMatches: a Config record that is transiently unreadable is not part of it, since revisions can then repeat across lineages; the flag that lets a protected room apply itself is not modelled, so armed means that a protected room is loaded, as the load plan means it.
- Persistence.Overlay.CaptureChaperone: the geometry and clock checks a capture may be refused by, and the auto-apply flag it sets, are not part of it.
- PoseStreamHub.Hub.DrainAppend: the consumer itself neither discards its backlog nor is created anew while its drain runs.
- Profile edits change nothing an epoch names, so the several edit operations are one event of the persistence model.
- FieldMath.BlendedFieldCalibration: rotations are exactly unit where the code accepts any that is not degenerate and normalizes them; Eigen's rotation of a vector by a unit quaternion is taken to be the quaternion sandwich.
- RuntimePose.SlewLimitsTheTurn: the bound is on the sine of half the turn and not on the turn, because the code blends quaternions linearly, which does not turn evenly.
- The seqlock's readers: one pose thread against the writer, which is every interleaving because readers write nothing that another device's reader reads.
- DriverSession.ValidateStructure: the numeric bounds of the wire values are not part of it.
- DriverSession.DriverSession.Apply: the error debounce, hook status and pose-hook mask are not part of it.
- HookTeardown.TeardownReleasesTheDriver: its threads interleave, so they are steps over values and not methods; `InjectHooks` and `DisableHooks` are called by one thread; the re-entrancy of a detour and poses of another size, which never reach the driver, are not steps of it.
- HookTeardown.TeardownGoesOn: that the scheduler lets every thread run again is not part of the model; each lemma says what the next step does.
- FrameWatch.EveryChangeHasOneOutcome: the reports for the log, and resetting the whole watch, are not part of it.
- JumpDetector.JumpDetector.Push: resume ages, held-lock notes and the totals of ignored drift are not part of it.
- ContinuousAlignment.EveryChangeRests: the online latency estimate, the derivation of the mount, the diagnostics and what an event says besides its kind and its attribution are not part of it; the robust window estimate is a parameter.
- ContinuousAlignment.ContinuousAlignment.Decide: the marks and outputs of the decisions are one record-valued field that the methods update step by step, where the source has a field for each; the streams are fields of their own.
- LogTailer.Tailer.Poll: a file replaced by one at least as long as what was read is not noticed, as in the code, and what a line means is not part of this model.
- `UniverseVerdict`, `TrackerFrameCorrections`, the JSON codecs and the pose ring itself are not part of this model.
- User interface, updater, diagnostics export, localization and VR input: presentation and plumbing.
