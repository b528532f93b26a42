# Verified models of the humanoid MPC stack

The stack runs a model-predictive controller for a humanoid: a control thread brings the robot up
and tracks the plan, an estimator controller provides the floating base, and a solver worker plans.
These Dafny modules model the parts where threads, loops or arithmetic make the code hard to trust
by reading, and prove what it promises about them.

- `bring_up_types`, `bring_up_machine`, `estimator_controller`: the values and the two objects whose
  ticks the protocol is made of. Observations, estimates and plans are opaque; history records where
  each came from.
- `solver_protocol`: the control thread (a tick split where it touches memory shared with the worker
  or the services), the estimator between ticks, the worker, the services (a call split at each of
  its accesses) and shutdown, as one transition system. `solver_handoff`, `solver_supply`,
  `solver_progress`, `tick_readings`, `epoch_freshness`, `bring_up_history`, `bring_up_timing` and
  `service_requests` prove invariants of every interleaving. `tick_runs` holds runs of ticks that
  `epoch_freshness` and `late_requests` use to show that what can go wrong is reached. Epochs are
  32-bit and wrap.
- `centroidal_handoff`: the hand-over of the earlier controller, which has no wait for a fresh
  observation, for both base sources.
- `log_ring`: the single-producer single-consumer log ring with every interleaving; `csv_logger`: the
  same ring as an object over one flat array; `csv_round_trip`: the row printer and the Python reader.
- `linear_kf` (with `matrices`): the linear Kalman filter, its loop-built matrices and its gauge
  symmetry; `kf_correction`: what an update gets right. `anchored_height`: touchdown anchors, height
  blending and flight hold.
- `terrain_config`, `terrain_heights`, `terrain_blocks`: the uneven-terrain generator.
- `wrench_mapper`, `wrench_invertible`, `hue_rotation`, `low_pass`: three compact pieces of algebra.
- `diagnostics_columns`, `diagnostics_recorder`, `diagnostics_cost`: what each log column is, and the
  schema builders and cursor-based recorders that have to agree on it; `diagnostics_sampling`: which
  calls become rows.

An object whose methods update fields is a class whose methods are proved equal to functions of the
old state; the lemmas over runs are about those functions. Several claims turned out to need a
condition, and the condition is proved exact: fresh hand-over, requests answered in the activation
they were made in, conservation at close, the csv round trip, anchors that stay, moves the filter
cannot see, corners a wrench can be spread over, a terrain that keeps a block, a filter that stays
in its hull. For the hand-over, the requests and the log a run from the start shows that the failure
is reached.

Running `dafny verify dfyconfig.toml` in this directory checks the whole project.

## Model

| member | source | states |
|---|---|---|
| `EpochFreshness.HandOverIsFresh` | src/humanoid_whole_body_inverse_dynamics_mpc/humanoid_whole_body_inverse_dynamics_mpc_controller.cpp:795-825 | over every interleaving of control ticks, estimator updates, worker steps, services and (de)activations: a hand-over answers a request of the same activation, and if the epoch asked for was not the one the estimator was running, the seed comes from a filter that was reset, stance-initialised with both contact references in stance and run for the readiness minimum, all after that request; reading the exports in the requesting tick makes the epochs differ; in any case the filter knew roll, pitch, height and the three velocities to within their limits in the update that made the seed |
| `EpochFreshness.FreshExactlyWhenDistinct` | src/humanoid_whole_body_inverse_dynamics_mpc/humanoid_whole_body_inverse_dynamics_mpc_controller.cpp:980-1022 | the condition is exact: every hand-over that can still answer a request is fresh if and only if the epoch asked for differs from the running one (or is 0, which is never answered) |
| `EpochFreshness.StaleRun` | src/humanoid_whole_body_inverse_dynamics_mpc/humanoid_whole_body_inverse_dynamics_mpc_controller.cpp:996-1000 | the failing family: whenever the epoch asked for is the running one, a concrete continuation hands over an estimate that was never reset for this request |
| `EpochFreshness.StaleHandOverHappens` | src/humanoid_whole_body_inverse_dynamics_mpc/humanoid_whole_body_inverse_dynamics_mpc_controller.cpp:996-1000 | the failing family is reached: for any settings under which some readings count as at rest, a run through two activations with the exports unreadable ends in a request of epoch 1 while the estimator runs epoch 1, and goes on to a hand-over that is not fresh |
| `SolverHandOff.HandOffIsSafe` | src/humanoid_whole_body_inverse_dynamics_mpc/humanoid_whole_body_inverse_dynamics_mpc_controller.cpp:546-621 | in every reachable state and for every step: the seed is written only while the worker cannot read it, the exchange pointer is followed only while it exists and its plan is read (to validate, follow or visualise it) only once there is one, it is freed only after the worker has left, and a control tick has supplied an observation since construction before each advance (which one, `SolverSupply.AdvancesFromTheLatestTick` says) |
| `SolverSupply.AdvancesFromTheLatestTick` | src/humanoid_whole_body_inverse_dynamics_mpc/humanoid_whole_body_inverse_dynamics_mpc_controller.cpp:546-554 | in every reachable state in which the worker advances: what it advances from was measured and is finite, and is the observation of the tick in progress, if that found the solver ready and is past feeding it, or else of the last tick of this activation that did; told from the records and readings of the ticks alone |
| `SolverSupply.HoldsTheSeedUntilFed` | src/humanoid_whole_body_inverse_dynamics_mpc/humanoid_whole_body_inverse_dynamics_mpc_controller.cpp:1157-1190 | until a tick has fed it the solver holds the seed, which is the observation of the tick of this activation that handed over |
| `SolverSupply.HoldsWhatThisTickGave` | src/humanoid_whole_body_inverse_dynamics_mpc/humanoid_whole_body_inverse_dynamics_mpc_controller.cpp:549-554 | from the step that feeds it to the end of that tick the solver holds the observation of this tick |
| `SolverSupply.SwapTakesTheNewest` | src/humanoid_whole_body_inverse_dynamics_mpc/humanoid_whole_body_inverse_dynamics_mpc_controller.cpp:555-561 | a swap makes the newest plan the worker has finished in this activation the one in use, says so exactly if there was one since the last swap, and does nothing while the solver is not ready |
| `SolverSupply.ResetsAreMadeWhenOwed` | src/humanoid_whole_body_inverse_dynamics_mpc/humanoid_whole_body_inverse_dynamics_mpc_controller.cpp:1255-1303 | over every run the worker finds a warm-start reset to be made exactly if a tick or a failed advance has asked for one since the last was made or an activation began, and never advances with one left to make; a reset that fails stays owed |
| `SolverProgress.WorkerWaitsForNothingElse` | src/humanoid_whole_body_inverse_dynamics_mpc/humanoid_whole_body_inverse_dynamics_mpc_controller.cpp:1157-1190 | in every reachable state the worker waits for a request exactly until a tick has handed over, for an observation exactly until a tick has fed the solver, and for nothing else; a tick finds the solver exactly once it is published |
| `SolverProgress.JoinReturns` | src/humanoid_whole_body_inverse_dynamics_mpc/humanoid_whole_body_inverse_dynamics_mpc_controller.cpp:1209-1219 | whatever the solver does, a worker that is told to stop or sees the node shut down leaves within four steps of its own, none of which waits |
| `TickReadings.ObservationsAreReadings` | src/humanoid_whole_body_inverse_dynamics_mpc/humanoid_whole_body_inverse_dynamics_mpc_controller.cpp:1024-1144 | every recorded tick: its observation bears its time; it was measured only from joints and a base that could be read, with a ground-truth base whenever they could, and is finite exactly if they were; otherwise the last measured one stands in for it: with an estimated base across activations, or the initial state before there was any; with a ground-truth base that of the activation at first |
| `TickReadings.HoldsTheLastPose` | src/humanoid_whole_body_inverse_dynamics_mpc/humanoid_whole_body_inverse_dynamics_mpc_controller.cpp:582-600 | every recorded tick of a ground-truth base follows the plan exactly if it is usable and else holds the pose the plan last set in this activation, or that of the activation before it set any |
| `TickReadings.BeginsWithTheExports` | src/humanoid_whole_body_inverse_dynamics_mpc/humanoid_whole_body_inverse_dynamics_mpc_controller.cpp:980-1022 | a tick takes the newest exports if it can read them and else keeps what it had, and trusts the estimate only if the estimator runs the epoch asked for |
| `TickReadings.HandsOverExactlyWhenReady` | src/humanoid_whole_body_inverse_dynamics_mpc/humanoid_whole_body_inverse_dynamics_mpc_controller.cpp:582-602 | a hand-over happens exactly in an upright Converge tick that reads the joints and a measured observation while the estimator answers and is ready; with a ground-truth base exactly when there is no usable plan, no request yet and a measured observation |
| `TickReadings.OnlyAnAskedEstimatorSpeaks` | src/humanoid_state_estimation/humanoid_state_estimator_controller.cpp:150-170 | over every run the estimator shows an epoch or a valid estimate only while it is active, and a valid estimate only after it has acted on an epoch |
| `SolverHandOff.SeedIsStable` | src/humanoid_whole_body_inverse_dynamics_mpc/humanoid_whole_body_inverse_dynamics_mpc_controller.cpp:1157-1190 | along any run on which the worker may read the seed, the seed keeps the value the hand-over wrote |
| `SolverHandOff.WritesAndFrees` | src/humanoid_whole_body_inverse_dynamics_mpc/humanoid_whole_body_inverse_dynamics_mpc_controller.cpp:1209-1219 | no step but a hand-over writes the seed and no step but the stop after the join frees the solver |
| `SolverHandOff.DecideIsLawful` | src/humanoid_whole_body_inverse_dynamics_mpc/humanoid_whole_body_inverse_dynamics_mpc_controller.cpp:582-602 | a command derived from the plan needs the validated flag, and a hand-over happens with no solver request raised yet |
| `BringUpHistory.BringUpIsSafe` | src/humanoid_whole_body_inverse_dynamics_mpc/humanoid_whole_body_inverse_dynamics_mpc_controller.cpp:727-867 | every recorded tick follows the phase graph, damps at the measured joints when it sees the tilt outside Passive, derives a command from the plan only in Blend or Locomotion with a plan that covers the evaluation time with two control periods to spare, and ends in Fault exactly when it was there, saw the tilt, or walked without a usable plan |
| `BringUpHistory.PlansCoverCommands` | src/humanoid_whole_body_inverse_dynamics_mpc/humanoid_whole_body_inverse_dynamics_mpc_controller.cpp:558-581 | for either base source a plan-derived command is issued only with at least two finite nodes around the evaluation time and two periods of margin |
| `BringUpHistory.PlanIsOk` | src/humanoid_whole_body_inverse_dynamics_mpc/humanoid_whole_body_inverse_dynamics_mpc_controller.cpp:562-581 | for either base source a tick finds the plan usable if and only if its observation was measured in that tick and the plan has two finite nodes or more around the evaluation time and goes on for more than two periods after it |
| `BringUpTiming.StandUpTakesItsTime` | src/humanoid_whole_body_inverse_dynamics_mpc/humanoid_whole_body_inverse_dynamics_mpc_controller.cpp:766-776 | over every run: StandUp is left, for Settle, exactly by a tick with readable joints and an upright trunk at least standUpSeconds after its entry, and until then the ramp is the cubic of the elapsed time, written out |
| `BringUpTiming.RampNeverFalls` | src/humanoid_whole_body_inverse_dynamics_mpc/humanoid_whole_body_inverse_dynamics_mpc_controller.cpp:766-776 | within one stand-up the ramp stays in [0, 1], never falls, is 0 at the time of entry and 1 at the tick that leaves |
| `BringUpTiming.BlendTakesItsTime` | src/humanoid_whole_body_inverse_dynamics_mpc/humanoid_whole_body_inverse_dynamics_mpc_controller.cpp:834-852 | with a usable plan Blend is left, for Locomotion, exactly by such a tick at least blendSeconds after its entry, the weight times blendSeconds being the elapsed time until then and the weight 1 from then on; without one the tick holds the stand and goes back to StartingMpc |
| `BringUpTiming.CommandsFollowThePhase` | src/humanoid_whole_body_inverse_dynamics_mpc/humanoid_whole_body_inverse_dynamics_mpc_controller.cpp:753-866 | what every recorded tick of the other phases commands, and when the plan moves them on, for both base sources; StartingMpc moves on exactly with a usable plan |
| `BringUpTiming.ReferencesAreTheLastTicks` | src/humanoid_whole_body_inverse_dynamics_mpc/humanoid_whole_body_inverse_dynamics_mpc_controller.cpp:1002-1017 | between ticks the estimator finds the epoch asked for, and for each foot stance, or the scheduled contact of the last tick once the plan is followed |
| `BringUpTiming.DrivesWhileFollowing` | src/humanoid_whole_body_inverse_dynamics_mpc/humanoid_whole_body_inverse_dynamics_mpc_controller.cpp:826-858 | the flag that the estimator drives the control is up exactly in Blend and Locomotion, but for Fault, which keeps what it found |
| `BringUpHistory.FaultIsLatched` | src/humanoid_whole_body_inverse_dynamics_mpc/humanoid_whole_body_inverse_dynamics_mpc_controller.cpp:727-867 | after a tick that ended in Fault every later tick of the activation is in Fault and damps |
| `BringUpHistory.ActivationStartsPassive` | src/humanoid_whole_body_inverse_dynamics_mpc/humanoid_whole_body_inverse_dynamics_mpc_controller.cpp:351-363 | the first tick of each activation is processed in Passive |
| `BringUpHistory.ConvergeExactlyAfterDwell` | src/humanoid_whole_body_inverse_dynamics_mpc/humanoid_whole_body_inverse_dynamics_mpc_controller.cpp:778-808 | a processed, untilted Settle tick ends in Converge if and only if some tick at least settleSeconds earlier started an unbroken stretch of restful Settle ticks and either auto-start is set or the start flag was stored in this activation; Converge is entered no other way; what a stored flag answers is `ServiceRequests.AnswersWereChecked` |
| `BringUpHistory.VerdictIsFiltered` | src/humanoid_whole_body_inverse_dynamics_mpc/humanoid_whole_body_inverse_dynamics_mpc_controller.cpp:778-793 | in every recorded Settle tick the verdict on rest is the one of the low-pass, written out as a weighted mean per component, over exactly the rates read since Settle was entered: the gyro norm below its limit and the norm of the acceleration within the tolerance of 9.81 |
| `BringUpHistory.StandUpExactlyWhenCalled` | src/humanoid_whole_body_inverse_dynamics_mpc/humanoid_whole_body_inverse_dynamics_mpc_controller.cpp:754-764 | a processed Passive tick stands up if and only if auto-start is set or the stand-up flag was stored in this activation; StandUp is entered no other way |
| `ServiceRequests.AtRestMeansDwelt` | src/humanoid_whole_body_inverse_dynamics_mpc/humanoid_whole_body_inverse_dynamics_mpc_controller.cpp:794-799 | whenever a service can load the at-rest flag as up, the phase is Settle and the last published verdict ends a dwell of settleSeconds in this activation |
| `ServiceRequests.AnswersWereChecked` | src/humanoid_whole_body_inverse_dynamics_mpc/humanoid_whole_body_inverse_dynamics_mpc_controller.cpp:246-278 | with each service call split into its loads and its store: a start flag with an answer was checked in this activation, right after a tick by which the trunk had dwelt at rest; a stand-up flag with an answer was checked in the Passive of this activation |
| `ServiceRequests.CallsAreGrantedExactlyWhenDue` | src/humanoid_whole_body_inverse_dynamics_mpc/humanoid_whole_body_inverse_dynamics_mpc_controller.cpp:246-278 | a call that nothing interrupts raises its flag exactly if it may, a stand-up in Passive and a start in Settle at rest, and changes nothing else |
| `LateRequests.StartsAnsweredExactlyWhenNoneInFlight` | src/humanoid_whole_body_inverse_dynamics_mpc/humanoid_whole_body_inverse_dynamics_mpc_controller.cpp:259-278 | the exact condition: without auto-start, however an activation goes on it leaves Settle only on a start call checked in it, if and only if no start call had passed its checks and not yet stored its flag when the controller was activated |
| `LateRequests.StandUpsAnsweredExactlyWhenNoneInFlight` | src/humanoid_whole_body_inverse_dynamics_mpc/humanoid_whole_body_inverse_dynamics_mpc_controller.cpp:246-258 | the same for standing up out of Passive and calls of the stand-up service |
| `LateRequests.LateStart` | src/humanoid_whole_body_inverse_dynamics_mpc/humanoid_whole_body_inverse_dynamics_mpc_controller.cpp:351-359 | the failing family: a start call in flight across an activation stores after the flag was cleared, and a run leaves Settle with no call checked in that activation |
| `LateRequests.LateStandUp` | src/humanoid_whole_body_inverse_dynamics_mpc/humanoid_whole_body_inverse_dynamics_mpc_controller.cpp:351-359 | the same for a stand-up call: the robot stands up in an activation in which nobody asked it to |
| `LateRequests.LateStartHappens` | src/humanoid_whole_body_inverse_dynamics_mpc/humanoid_whole_body_inverse_dynamics_mpc_controller.cpp:259-278 | the failing family is reached for any settings under which some readings count as at rest, by a run from the start to an activation with a start call in flight, and on to the tick that leaves Settle |
| `BringUpHistory.SettleTickKeeps` | src/humanoid_whole_body_inverse_dynamics_mpc/humanoid_whole_body_inverse_dynamics_mpc_controller.cpp:716-725 | the rest timer holds the time of the first tick of the current restful stretch, across ticks that could not read the joints too |
| `BringUpHistory.ResetsAreAccounted` | src/humanoid_whole_body_inverse_dynamics_mpc/humanoid_whole_body_inverse_dynamics_mpc_controller.cpp:562-581 | the warm-start resets asked for number exactly the rejected fresh plans plus the usable-to-unusable edges without a fresh plan |
| `BringUpHistory.ResetsAreNotRepeated` | src/humanoid_whole_body_inverse_dynamics_mpc/humanoid_whole_body_inverse_dynamics_mpc_controller.cpp:570-575 | a stretch of ticks that hold without a fresh plan asks for one reset if the plan had been usable before it, else for none |
| `BringUpMachine.BringUpIsLawful` | src/humanoid_whole_body_inverse_dynamics_mpc/humanoid_whole_body_inverse_dynamics_mpc_controller.cpp:727-867 | for any readings one call keeps the phase graph and the estimator link, requests only on leaving Settle, hands over only on leaving Converge, and reaches Fault exactly in the stated cases |
| `BringUpMachine.SettleOutcome` | src/humanoid_whole_body_inverse_dynamics_mpc/humanoid_whole_body_inverse_dynamics_mpc_controller.cpp:778-808 | what a Settle tick does to the filter and the timer, and that it enters Converge exactly when the dwell and start conditions hold |
| `BringUpMachine.SettleStartsStopped` | src/humanoid_whole_body_inverse_dynamics_mpc/humanoid_whole_body_inverse_dynamics_mpc_controller.cpp:716-725 | Settle is always entered with the timer stopped and the filter not started |
| `BringUpMachine.Controller.FilterRates` | src/humanoid_whole_body_inverse_dynamics_mpc/humanoid_whole_body_inverse_dynamics_mpc_controller.cpp:779-793 | the low-pass fields after one reading and the verdict of the norms; unreadable rates change nothing and are not rest |
| `BringUpMachine.Controller.OnActivate` | src/humanoid_whole_body_inverse_dynamics_mpc/humanoid_whole_body_inverse_dynamics_mpc_controller.cpp:292-363 | the fields after activation: phase, timers, calls and plan flags reset; estimator status, epoch, last observation and settle filter kept |
| `BringUpMachine.Controller.ReadStateEstimator` | src/humanoid_whole_body_inverse_dynamics_mpc/humanoid_whole_body_inverse_dynamics_mpc_controller.cpp:980-994 | unreadable exports leave the last link; otherwise an estimate is valid only if it answers the request |
| `BringUpMachine.Controller.RequestEstimatorInitialization` | src/humanoid_whole_body_inverse_dynamics_mpc/humanoid_whole_body_inverse_dynamics_mpc_controller.cpp:996-1000 | the epoch becomes the successor of the last status epoch and the estimate is invalidated |
| `BringUpMachine.Controller.BuildObservation` | src/humanoid_whole_body_inverse_dynamics_mpc/humanoid_whole_body_inverse_dynamics_mpc_controller.cpp:1024-1144 | a measured observation from the readable sources, or the last hardware one re-stamped |
| `BringUpMachine.Controller.ValidatePolicy` | src/humanoid_whole_body_inverse_dynamics_mpc/humanoid_whole_body_inverse_dynamics_mpc_controller.cpp:558-581 | the ready flag and the reset request for the active plan, the tick observation and the swap of this tick |
| `BringUpMachine.Controller.EnterBringUpPhase` | src/humanoid_whole_body_inverse_dynamics_mpc/humanoid_whole_body_inverse_dynamics_mpc_controller.cpp:716-725 | the stage fields after a phase change |
| `BringUpMachine.Controller.GuardTilt` | src/humanoid_whole_body_inverse_dynamics_mpc/humanoid_whole_body_inverse_dynamics_mpc_controller.cpp:738-751 | the stage after the tilt guard |
| `BringUpMachine.Controller.RunSettle` | src/humanoid_whole_body_inverse_dynamics_mpc/humanoid_whole_body_inverse_dynamics_mpc_controller.cpp:778-808 | one Settle tick on the fields, from the raw rates to the request, equals its specification, whose filter and dwell are proved over runs |
| `BringUpMachine.Controller.RunBlend` | src/humanoid_whole_body_inverse_dynamics_mpc/humanoid_whole_body_inverse_dynamics_mpc_controller.cpp:834-852 | one Blend tick on the fields equals its specification |
| `BringUpMachine.Controller.RunPhase` | src/humanoid_whole_body_inverse_dynamics_mpc/humanoid_whole_body_inverse_dynamics_mpc_controller.cpp:753-866 | the switch over the eight phases equals its specification |
| `BringUpMachine.Controller.RunBringUp` | src/humanoid_whole_body_inverse_dynamics_mpc/humanoid_whole_body_inverse_dynamics_mpc_controller.cpp:727-867 | one bring-up call on the fields equals the function that the whole-run lemmas are about |
| `EstimatorController.UpdateIsSound` | src/humanoid_state_estimation/humanoid_state_estimator_controller.cpp:220-280 | an estimate exported as ready comes from a filter initialised after its last reset, run for the minimum time and sure of what it can know; every update keeps this |
| `EstimatorController.ReadyExactlyWhenOldAndSure` | src/humanoid_state_estimation/humanoid_state_estimator.cpp:46-68 | an update that runs the filter leaves it ready if and only if the minimum time has passed since the first such update after the reset and roll, pitch, height and the three velocities are within their limits; any other update leaves the flag alone, but for a changed epoch, which clears it |
| `EstimatorController.GaugeDoesNotMatter` | src/humanoid_state_estimation/humanoid_state_estimator.cpp:61-66 | inputs that differ only in the deviations of heading and horizontal position give the same readiness |
| `EstimatorController.EpochChangeResets` | src/humanoid_state_estimation/humanoid_state_estimator_controller.cpp:224-234 | an update resets the filter if and only if the epoch changes, and an initialisation records whether both contact references were stance |
| `EstimatorController.Controller.Readiness` | src/humanoid_state_estimation/humanoid_state_estimator.cpp:46-68 | the readiness gate on the fields: the minimum time since the first valid update, and each of the six observable standard deviations below its limit; yaw and horizontal position do not count |
| `EstimatorController.Controller.ResetFilter` | src/humanoid_state_estimation/humanoid_state_estimator.cpp:88-95 | the filter fields after a reset |
| `EstimatorController.Controller.OnActivate` | src/humanoid_state_estimation/humanoid_state_estimator_controller.cpp:150-161 | fields and exports after activation |
| `EstimatorController.Controller.OnDeactivate` | src/humanoid_state_estimation/humanoid_state_estimator_controller.cpp:163-170 | fields and exports after deactivation |
| `EstimatorController.Controller.WriteExports` | src/humanoid_state_estimation/humanoid_state_estimator_controller.cpp:282-292 | the exports are the fields |
| `EstimatorController.Controller.UpdateAndWrite` | src/humanoid_state_estimation/humanoid_state_estimator_controller.cpp:220-280 | one update on the fields equals the function the freshness proof is about, with the exports rewritten on every branch |
| `CentroidalHandOff.HandOffIsSafe` | src/humanoid_centroidal_mpc/humanoid_centroidal_mpc_controller.cpp:500-541 | in every interleaving of the earlier controller, both base sources: the solver is used only once it exists and a policy has been received, until then every solve starts from the measured seed, and there is one hand-over per activation |
| `CentroidalHandOff.SeedIsStable` | src/humanoid_centroidal_mpc/humanoid_centroidal_mpc_controller.cpp:1508-1541 | no step writes the seed once the worker may read it, and only the stop after the join frees the solver |
| `CentroidalHandOff.SolvesFromTheLastUse` | src/humanoid_centroidal_mpc/humanoid_centroidal_mpc_controller.cpp:1699-1701 | over every run a solve starts from the observation of the last tick that used the policy in this activation, and before any did from that of the tick that handed over |
| `CentroidalHandOff.TickOutcome` | src/humanoid_centroidal_mpc/humanoid_centroidal_mpc_controller.cpp:770-790 | a whole tick: with a ground-truth base the policy drives exactly when it is there and a measured observation is handed over once; with an estimated one a tick drives, hands over, enters and leaves its phases exactly under the conditions written out |
| `CentroidalHandOff.PolicyExactlyOnceSolved` | src/humanoid_centroidal_mpc/humanoid_centroidal_mpc_controller.cpp:523-541 | over every run there is a policy exactly if an advance has succeeded since the solver was built; a solver that is built is found, and the worker waits for nothing but the hand-over |
| `CentroidalHandOff.StopBringsTheWorkerOut` | src/humanoid_centroidal_mpc/humanoid_centroidal_mpc_controller.cpp:1528-1541 | a worker that is told to stop can always take a step and comes nearer to leaving with each, so the join returns |
| `CentroidalHandOff.ControlKeeps` | src/humanoid_centroidal_mpc/humanoid_centroidal_mpc_controller.cpp:762-802 | each step of a control tick keeps the hand-over invariant, for the bring-up and the ground-truth branch |
| `CentroidalHandOff.WorkerKeeps` | src/humanoid_centroidal_mpc/humanoid_centroidal_mpc_controller.cpp:523-541 | each step of the worker keeps the hand-over invariant |
| `LogRing.RingRefinesQueue` | src/common/diagnostics_csv_logger.cpp:93-119 | in every interleaving of begin, set, commit, writer steps and close: file, then writer buffer, then ring from tail to head are the committed rows in order, and every begin that saw the logger running is dropped, open, written, buffered or queued |
| `LogRing.ProducerWritesElsewhere` | src/common/diagnostics_csv_logger.cpp:103-113 | filling a row changes no row the writer may still read |
| `LogRing.RowsAreHandedOutUnset` | src/common/diagnostics_csv_logger.cpp:106-114 | a row that a begin has just handed out is unset in every column |
| `LogRing.DropsExactlyWhenFull` | src/common/diagnostics_csv_logger.cpp:98-104 | a begin drops exactly when capacity minus one rows are outstanding |
| `LogRing.ShutdownTerminates` | src/common/diagnostics_csv_logger.cpp:175-183 | after close the writer takes at most a computed number of further steps, whatever the producer does |
| `LogRing.CloseConserves` | src/common/diagnostics_csv_logger.cpp:83-91 | closed with no row open: once the writer has left, the file holds exactly the committed rows, and the begins are the rows written, dropped, or given up by beginning another |
| `LogRing.ConservesExactlyWhenClosedOutside` | src/common/diagnostics_csv_logger.cpp:180-183 | exact condition: no interleaving after close loses a row if and only if no row was begun and not committed when close was called |
| `LogRing.FileIsWhatWasSeen` | src/common/diagnostics_csv_logger.cpp:145-183 | in every interleaving, wherever close fell: once the writer has left, the file holds in order exactly the rows committed by its last read of the head, and at most one row, open at that read, is missing |
| `LogRing.FirstRowMayBeLost` | src/common/diagnostics_csv_logger.cpp:83-119 | a concrete losing run from any freshly opened log: begin, close, the writer leaves, commit; the file is empty and one row is committed |
| `LogRing.OpenRowMayBeLost` | src/common/diagnostics_csv_logger.cpp:116-119 | the failing family: with a row open at close there is a run in which it is neither written nor dropped |
| `LogRing.Advance` | src/common/diagnostics_csv_logger.cpp:97 | the next index modulo the capacity, as the ring proofs use it |
| `CsvLogger.Open` | src/common/diagnostics_csv_logger.cpp:32-81 | which of an empty column list, the directory, the file and the header write refuses; otherwise the file holds the header and the ring is empty |
| `CsvLogger.Logger.constructor` | src/common/diagnostics_csv_logger.cpp:69-80 | the object after opening: indices and counters zero, header written |
| `CsvLogger.Prefill` | src/common/diagnostics_csv_logger.cpp:108-112 | in the flat array exactly one row is rewritten, to unset |
| `CsvLogger.Logger.BeginRow` | src/common/diagnostics_csv_logger.cpp:93-114 | which begins get a row, which are dropped and which give up an open row, that the row starts unset and that no queued row changes |
| `CsvLogger.Logger.SetColumn` | src/common/diagnostics_csv_logger.cpp:93-114 | a caller write through the returned pointer changes one cell of the open row and no queued row |
| `CsvLogger.Logger.CommitRow` | src/common/diagnostics_csv_logger.cpp:116-119 | the open row joins the end of the queue |
| `CsvLogger.Logger.FormatReady` | src/common/diagnostics_csv_logger.cpp:156-168 | the drain loop formats exactly the queued rows, in order, and empties the ring |
| `CsvLogger.Logger.Drain` | src/common/diagnostics_csv_logger.cpp:156-174 | the file grows by exactly the queued rows and the written count by their number |
| `CsvLogger.Logger.Close` | src/common/diagnostics_csv_logger.cpp:83-91 | after closing with no row open the begins are the rows written, dropped or given up; closing twice does nothing |
| `CsvLogger.FileIsFileText` | src/common/diagnostics_csv_logger.cpp:57-63 | the header and row text of the file is the text the reader is proved against |
| `CsvRoundTrip.FormatRow` | src/common/diagnostics_csv_logger.cpp:121-142 | the printing loop appends the comma-joined fields, empty for unset, and a newline |
| `CsvRoundTrip.RoundTripExactlyWhenNotBlank` | launch/analyze_diagnostics.py:71-92 | reading what was printed gives back every row, unset exactly where it was unset, if and only if there are at least two columns or no row is a lone unset cell |
| `CsvRoundTrip.FileReads` | launch/analyze_diagnostics.py:71-92 | for any width: the reader returns the header and exactly the rows that are not a blank line |
| `CsvRoundTrip.KilledRunReads` | launch/analyze_diagnostics.py:84-90 | a file cut inside a field reads as the complete rows and one padded row, or not at all when the cut number does not parse |
| `CsvRoundTrip.SplitJoin` | launch/analyze_diagnostics.py:74 | splitting comma-joined fields gives the fields back |
| `CsvRoundTrip.ParseLine` | launch/analyze_diagnostics.py:90 | the loop over one line: empty and nan become unset, anything else must parse |
| `CsvRoundTrip.ReadLine` | launch/analyze_diagnostics.py:82-90 | one line: blank ones skipped, short ones padded, long ones cut |
| `CsvRoundTrip.ReadBody` | launch/analyze_diagnostics.py:81-90 | the loop over the lines equals the function the round trip is about |
| `CsvRoundTrip.Read` | launch/analyze_diagnostics.py:72-92 | the whole reader equals the function the round trip is about, with the empty file giving an empty table |
| `LinearKf.RunIsEquivariant` | src/humanoid_state_estimation/linear_kf_floating_base_estimator.cpp:208-327 | two filters with the same covariance, fed the same inputs, that differ by one horizontal move of base and contacts differ by exactly that move after any number of updates, for any solve |
| `LinearKf.UpdateIsEquivariant` | src/humanoid_state_estimation/linear_kf_floating_base_estimator.cpp:294-313 | one update commutes with a horizontal move, and the innovation statistic does not change |
| `LinearKf.InvisibleExactlyWhenHorizontal` | src/humanoid_state_estimation/linear_kf_floating_base_estimator.cpp:75-90 | a common move of base and contacts is invisible to the measurement matrix if and only if it is horizontal |
| `KfCorrection.ResidualIsNoise` | src/humanoid_state_estimation/linear_kf_floating_base_estimator.cpp:303-308 | for a solve that solves: what is left of the innovation after the correction is the sensor noise times the solution, so the state moves towards the measurement, all the way without noise |
| `KfCorrection.UpdateResidual` | src/humanoid_state_estimation/linear_kf_floating_base_estimator.cpp:294-317 | the same for a whole update, from the filter before it, and the innovation statistic is the square of the solution in the innovation covariance |
| `KfCorrection.CovarianceLaw` | src/humanoid_state_estimation/linear_kf_floating_base_estimator.cpp:303-310 | before it is made symmetric the posterior covariance times the transposed measurement matrix is the prior one times it, solved for the sensor noise |
| `KfCorrection.VarianceFalls` | src/humanoid_state_estimation/linear_kf_floating_base_estimator.cpp:309-311 | in every direction the reported variance is the prior one less what the innovation along it, weighed by the inverse of its covariance, accounts for |
| `KfCorrection.PriorVariance` | src/humanoid_state_estimation/linear_kf_floating_base_estimator.cpp:299 | in every direction the predicted variance is that along the direction carried back by the transition, plus the process noise |
| `KfCorrection.InnovationVariance` | src/humanoid_state_estimation/linear_kf_floating_base_estimator.cpp:305 | in every direction the variance of the innovation is the predicted one along what is measured, plus the sensor noise |
| `KfCorrection.NothingToCorrectExactlyWhenItAgrees` | src/humanoid_state_estimation/linear_kf_floating_base_estimator.cpp:271-304 | a state leaves no innovation if and only if it agrees with the kinematics: every contact point where the foot is seen from the base less the foot radius, at height zero, and at rest |
| `KfCorrection.AtRestStaysAtRest` | src/humanoid_state_estimation/linear_kf_floating_base_estimator.cpp:294-298 | an accelerometer that reads gravity alone predicts unchanged velocity and contacts, and a base moved by its velocity |
| `KfCorrection.NoiseFollowsTheContact` | src/humanoid_state_estimation/linear_kf_floating_base_estimator.cpp:285-291 | each contact has its nominal noise while planted, and the swing factor times that in the air |
| `KfCorrection.BaseNoise` | src/humanoid_state_estimation/linear_kf_floating_base_estimator.cpp:228-235 | the base has the nominal noise, a twentieth of the sampling time for the position and 9.81 of that for the velocity |
| `KfCorrection.SeedStandsStill` | src/humanoid_state_estimation/linear_kf_floating_base_estimator.cpp:136-156 | a seeded state has the base where it is told, at rest, and every contact where the foot is seen from it |
| `KfCorrection.ReportIsPerDimension` | src/humanoid_state_estimation/linear_kf_floating_base_estimator.cpp:312-318 | the statistic is reported as it is, and its share times the dimension gives it back |
| `LinearKf.MeasurementPerContact` | src/humanoid_state_estimation/linear_kf_floating_base_estimator.cpp:75-90 | the matrix applied to a state is, per contact, base minus contact, base velocity and contact height |
| `LinearKf.PredictionPerBlock` | src/humanoid_state_estimation/linear_kf_floating_base_estimator.cpp:219-222 | the process matrices applied to a state are constant acceleration on the base and contacts at rest |
| `LinearKf.TransitionKeepsShift` | src/humanoid_state_estimation/linear_kf_floating_base_estimator.cpp:219-222 | the transition fixes a common move |
| `LinearKf.Symmetric` | src/humanoid_state_estimation/linear_kf_floating_base_estimator.cpp:307-309 | the symmetrised covariance equals its transpose |
| `LinearKf.Create` | src/humanoid_state_estimation/linear_kf_floating_base_estimator.cpp:58-62 | a filter without contact points is refused |
| `LinearKf.Estimator.constructor` | src/humanoid_state_estimation/linear_kf_floating_base_estimator.cpp:64-96 | the object after construction, with the loop-built measurement matrix |
| `LinearKf.Estimator.FillMeasurement` | src/humanoid_state_estimation/linear_kf_floating_base_estimator.cpp:83-90 | the block loops build exactly the per-contact matrix, entry by entry, for any number of contacts |
| `LinearKf.Estimator.ExpandContactFlags` | src/humanoid_state_estimation/linear_kf_floating_base_estimator.cpp:99-115 | each point takes the flag of its foot, and counts as planted when its foot is out of range |
| `LinearKf.Estimator.Seed` | src/humanoid_state_estimation/linear_kf_floating_base_estimator.cpp:136-156 | the seeding loop puts the base at the given pose, at rest, and every contact where kinematics has it |
| `LinearKf.Estimator.Initialize` | src/humanoid_state_estimation/linear_kf_floating_base_estimator.cpp:129-161 | state, orientation and covariance after seeding |
| `LinearKf.Estimator.SumToGround` | src/humanoid_state_estimation/linear_kf_floating_base_estimator.cpp:172-175 | the loop adds up how far the contacts are below the ground |
| `LinearKf.Estimator.InitializeFromStance` | src/humanoid_state_estimation/linear_kf_floating_base_estimator.cpp:163-178 | after stance seeding the mean contact height is the ground height |
| `LinearKf.MeanLandsOnGround` | src/humanoid_state_estimation/linear_kf_floating_base_estimator.cpp:171-177 | raising the base by the mean distance moves the contacts by the sum of distances |
| `LinearKf.Estimator.SetTransition` | src/humanoid_state_estimation/linear_kf_floating_base_estimator.cpp:220 | the block assignment turns the kept matrix into the transition for this sampling time |
| `LinearKf.Estimator.SetInput` | src/humanoid_state_estimation/linear_kf_floating_base_estimator.cpp:221-222 | the block assignments build the input matrix |
| `LinearKf.Estimator.MeasureFeet` | src/humanoid_state_estimation/linear_kf_floating_base_estimator.cpp:271-280 | the contact loop fills the two measurement parts |
| `LinearKf.Estimator.ScaleBlock` | src/humanoid_state_estimation/linear_kf_floating_base_estimator.cpp:288-291 | scaling one diagonal block changes that block only |
| `LinearKf.Estimator.ScaleProcessNoise` | src/humanoid_state_estimation/linear_kf_floating_base_estimator.cpp:224-237 | the process noise is diagonal, and only the blocks of contacts in the air are scaled |
| `LinearKf.Estimator.ScaleSensorNoise` | src/humanoid_state_estimation/linear_kf_floating_base_estimator.cpp:239-244 | the sensor noise is diagonal, with position, velocity and height blocks scaled for contacts in the air |
| `LinearKf.Estimator.Predict` | src/humanoid_state_estimation/linear_kf_floating_base_estimator.cpp:215-305 | the filled matrices give the predicted state, both covariances and the measurement the correction works on |
| `LinearKf.Estimator.Correct` | src/humanoid_state_estimation/linear_kf_floating_base_estimator.cpp:303-318 | state, covariance and report after the correction |
| `LinearKf.Estimator.UpdateImpl` | src/humanoid_state_estimation/linear_kf_floating_base_estimator.cpp:208-327 | one update on the fields equals the function the equivariance is proved about, and reports the base, the attitude and turn rate it used, the innovation statistic and its dimension |
| `Matrices.Adjoint` | include/humanoid_common_mpc/contact/ContactWrenchMapper.h:59 | the transpose is the adjoint, for any matrix |
| `Matrices.ApplyMul` | include/humanoid_common_mpc/contact/ContactWrenchMapper.h:59 | applying a product is applying its factors in turn |
| `AnchoredHeight.AnchorsStayExactly` | src/humanoid_state_estimation/inekf_floating_base_estimator.cpp:317-341 | on flat ground with exact stance kinematics, over a whole run no anchor ever moves if and only if the filter height error is within the deadband (or zero) at every touchdown |
| `AnchoredHeight.ReportedErrorOnStance` | src/humanoid_state_estimation/inekf_floating_base_estimator.cpp:519-532 | in such a run every stance tick has the true kinematic height and a reported error of (1 - w) times the filter error |
| `AnchoredHeight.FlightIsContinuous` | src/humanoid_state_estimation/inekf_floating_base_estimator.cpp:533-537 | with the hold enabled, reported minus filter is the same on every flight tick as on the last stance tick |
| `AnchoredHeight.ReportedErrorInFlight` | src/humanoid_state_estimation/inekf_floating_base_estimator.cpp:533-537 | through a flight the reported error is the filter error now minus w times that at take-off |
| `AnchoredHeight.AnchorBound` | src/humanoid_state_estimation/inekf_floating_base_estimator.cpp:317-341 | on any terrain the anchor of a contact in stance is off by at most the deadband plus the filter error at landing |
| `AnchoredHeight.KinematicBound` | src/humanoid_state_estimation/inekf_floating_base_estimator.cpp:301-348 | on any terrain the kinematic height of every stance tick is within that bound of the true height |
| `AnchoredHeight.PlaneSourceOnStance` | src/humanoid_state_estimation/inekf_floating_base_estimator.cpp:334-347 | without anchors, on flat ground that may not be where it is configured: the kinematic height is off by just that difference, the kinematic source reports it as it is, and the blend moves the filter height by its weight towards it |
| `AnchoredHeight.FilterSourceIsUntouched` | src/humanoid_state_estimation/inekf_floating_base_estimator.cpp:513-519 | the filter source reports the filter height and keeps nothing |
| `AnchoredHeight.FlightWithoutHold` | src/humanoid_state_estimation/inekf_floating_base_estimator.cpp:533-537 | in flight without the hold, or before any stance, the filter height is reported |
| `AnchoredHeight.NothingIsHeldBeforeStance` | src/humanoid_state_estimation/inekf_floating_base_estimator.cpp:533-537 | a flight that begins before any stance reports the height of the filter throughout |
| `AnchoredHeight.LevelSeedIsPinned` | src/humanoid_state_estimation/inekf_floating_base_estimator.cpp:237-246 | with level contacts stance seeding puts every anchor exactly on the ground plane |
| `AnchoredHeight.Conditioner.Initialize` | src/humanoid_state_estimation/inekf_floating_base_estimator.cpp:198-224 | anchors at the seeded contact heights, no contact in stance, no held offset |
| `AnchoredHeight.Conditioner.InitializeFromStance` | src/humanoid_state_estimation/inekf_floating_base_estimator.cpp:226-247 | stance seeding puts the mean contact height on the ground plane |
| `AnchoredHeight.Conditioner.KinematicBaseHeight` | src/humanoid_state_estimation/inekf_floating_base_estimator.cpp:301-348 | one pass over the contacts moves exactly the anchors the touchdown rule says and returns the mean over stance contacts, or nothing |
| `AnchoredHeight.Conditioner.Update` | src/humanoid_state_estimation/inekf_floating_base_estimator.cpp:515-539 | the conditioning of one tick on the fields equals the function the run lemmas are about; nothing before initialisation |
| `TerrainHeights.GenerateHeights` | description/mujoco/terrains/generate_uneven_terrain.py:106-118 | for every random draw the generator fails exactly on an invalid configuration; heights stay in [min, max] and edge differences in the bounds up to 1e-12, and each height is the sum of one value of each walk and of the jitter of its cell |
| `TerrainHeights.AxisProfile` | description/mujoco/terrains/generate_uneven_terrain.py:78-103 | the walk starts in the middle of its span, stays in it, and each step goes by the drawn quantile, cut off at the end of the span, towards the written-out sine trend if the coin falls below the strength and there is room, and else in the direction chosen of those with room |
| `TerrainHeights.LeansTowardsTheTrend` | description/mujoco/terrains/generate_uneven_terrain.py:92-102 | with the coin below the strength and room, a step rises if and only if the trend lies above; any step moves unless it is at the end of the span |
| `TerrainHeights.SignsAreNeverEmpty` | description/mujoco/terrains/generate_uneven_terrain.py:92 | there is always a sign with room for the least step |
| `TerrainHeights.StepIsApart` | description/mujoco/terrains/generate_uneven_terrain.py:95-102 | one clipped step stays in the span and moves by an allowed distance |
| `TerrainHeights.Drawn` | description/mujoco/terrains/generate_uneven_terrain.py:97-101 | the distance lies between its bounds and is the quantile of the uniform distribution, or of the triangular one about the configured mode brought between the bounds |
| `TerrainHeights.StepsAreBounded` | description/mujoco/terrains/generate_uneven_terrain.py:111-113 | the reserved jitter keeps every edge difference in the configured bounds |
| `TerrainHeights.HeightsInEnvelope` | description/mujoco/terrains/generate_uneven_terrain.py:112-113 | every height is in the configured range |
| `TerrainHeights.AdjacentDifferences` | description/mujoco/terrains/generate_uneven_terrain.py:121-125 | the list is the edge differences, row by row |
| `TerrainHeights.DifferencesAreEdges` | description/mujoco/terrains/generate_uneven_terrain.py:121-125 | all listed differences are in bounds if and only if all edges of the grid are |
| `TerrainHeights.CheckPasses` | description/mujoco/terrains/generate_uneven_terrain.py:116-117 | the final 1e-10 check never raises |
| `TerrainBlocks.GenerateBlocks` | description/mujoco/terrains/generate_uneven_terrain.py:143-159 | the boxes are exactly the parts of all cells, no two overlap, and the error is raised exactly when the configuration says so: the opening reaches into the outermost cells on all sides and none of them sticks out of it by more than 1e-10 |
| `TerrainBlocks.ValidExactlyWhenTheFieldMakesSense` | description/mujoco/terrains/generate_uneven_terrain.py:28-75 | a configuration is accepted if and only if every cell is solid, the walk has room for its least step from everywhere, the trend stays in the span whatever its sine, the opening lies in the field, the lowest block stands above the ground, and the counts, shade and friction are in their ranges |
| `TerrainBlocks.BoxIsLeft` | description/mujoco/terrains/generate_uneven_terrain.py:128-160 | a box is left, whatever the heights, if and only if a condition on the outermost cells of each axis and the opening holds |
| `TerrainBlocks.BoxIsLeftExactlyWhenACellSticksOut` | description/mujoco/terrains/generate_uneven_terrain.py:128-160 | with cells wider than twice what is dropped, the condition is that there is no opening or a cell sticks out of it on some side |
| `TerrainBlocks.BoxIsClean` | description/mujoco/terrains/generate_uneven_terrain.py:153-156 | each box has positive size, lies in the field, reaches from the bottom to its cell height and misses the opening |
| `TerrainBlocks.BoxesAreApart` | description/mujoco/terrains/generate_uneven_terrain.py:148-156 | any two boxes of the grid have disjoint interiors |
| `TerrainBlocks.PartsAreClean` | description/mujoco/terrains/generate_uneven_terrain.py:128-140 | clipping leaves solid parts of the cell, pairwise apart and outside the opening |
| `TerrainBlocks.AreaIsAccountedFor` | description/mujoco/terrains/generate_uneven_terrain.py:128-140 | the area of a cell is that of its parts, its overlap with the opening and strips dropped for being thin |
| `TerrainBlocks.PointsAreCovered` | description/mujoco/terrains/generate_uneven_terrain.py:128-140 | every point of a cell is in a part, in the opening or in a dropped strip |
| `TerrainBlocks.CellIsInField` | description/mujoco/terrains/generate_uneven_terrain.py:150-151 | every cell is solid and inside the field |
| `TerrainBlocks.CellsAreApart` | description/mujoco/terrains/generate_uneven_terrain.py:150-151 | different cells do not overlap |
| `TerrainBlocks.FieldIsTiled` | description/mujoco/terrains/generate_uneven_terrain.py:150-151 | every point of the field is in a cell or in the gap around one |
| `WrenchMapper.ContactWrenchMapper.ComputeForces` | include/humanoid_common_mpc/contact/ContactWrenchMapper.h:68-75 | when the library inverted A Aᵀ (see `WrenchInvertible.LibraryInverts`): the forces reproduce the wrench, and every other set of forces that does has a strictly larger sum of squared norms |
| `WrenchMapper.ContactWrenchMapper.constructor` | include/humanoid_common_mpc/contact/ContactWrenchMapper.h:48-60 | the object holds the loop-built matrix and the inverse of A Aᵀ |
| `WrenchMapper.ContactWrenchMapper.Fill` | include/humanoid_common_mpc/contact/ContactWrenchMapper.h:52-56 | with the cross-product matrix of src/core/humanoid_common_mpc/src/contact/ContactPolygon.cpp:71-79, the block loop builds identity over cross-product blocks for any number of corners |
| `WrenchMapper.MapIsWrench` | include/humanoid_common_mpc/contact/ContactWrenchMapper.h:52-58 | the matrix applied to corner forces is their force and moment, by the cross product |
| `WrenchMapper.SpreadReproduces` | include/humanoid_common_mpc/contact/ContactWrenchMapper.h:59 | the right inverse is one |
| `WrenchMapper.SpreadIsLeast` | include/humanoid_common_mpc/contact/ContactWrenchMapper.h:37-40 | the spread forces are the unique smallest with their wrench, in the sum of squares |
| `WrenchInvertible.InvertibleExactlyWhenNotOnOneLine` | include/humanoid_common_mpc/contact/ContactWrenchMapper.h:59 | A Aᵀ has an inverse if and only if the corners are not all on one line, for any number of corners |
| `WrenchInvertible.SpreadHasInverse` | include/humanoid_common_mpc/contact/ContactWrenchMapper.h:59 | for corners not on one line the inverse is built from the solutions of its two blocks of three |
| `WrenchInvertible.SquareIsBlocks` | include/humanoid_common_mpc/contact/ContactWrenchMapper.h:52-59 | A Aᵀ applied to a wrench is two blocks of three in the sums of the corners and of their products |
| `WrenchInvertible.ScatterPositive` | include/humanoid_common_mpc/contact/ContactWrenchMapper.h:59 | corners not on one line scatter to the side of every direction |
| `WrenchInvertible.LibraryInverts` | include/humanoid_common_mpc/contact/ContactWrenchMapper.h:59 | a library inverse that inverts whatever can be inverted gives the inverse for every polygon whose corners are not on one line, so a caller knows from the corners that the forces are right |
| `WrenchMapper.CollinearHasNoInverse` | include/humanoid_common_mpc/contact/ContactWrenchMapper.h:59 | with all corners on one line A Aᵀ has no inverse, since no forces make a moment about it |
| `HueRotation.RgbRoundTrip` | src/visualization/optimized_state_trajectory_visualization.cpp:35-93 | RGB in the unit cube to HSV and back is the identity |
| `HueRotation.HsvRoundTrip` | src/visualization/optimized_state_trajectory_visualization.cpp:35-93 | a coloured HSV triple to RGB and back is the identity, in all six sectors and on their boundaries, with the value and spread as its extremes |
| `HueRotation.HsvToRgbByDistance` | src/visualization/optimized_state_trajectory_visualization.cpp:61-93 | each channel of a triple lies between the lowest and the highest by how near the hue is to its own place: red at 0, green at a third, blue at two thirds of a turn |
| `HueRotation.RotationAddsToTheHue` | src/visualization/optimized_state_trajectory_visualization.cpp:95-101 | rotation adds the offset to the hue, up to whole turns, and keeps saturation and value |
| `HueRotation.RotationsAdd` | src/visualization/optimized_state_trajectory_visualization.cpp:95-101 | rotating by a and then by b is rotating by a + b |
| `HueRotation.WholeTurnsAreNothing` | src/visualization/optimized_state_trajectory_visualization.cpp:95-101 | a whole number of turns changes no colour |
| `HueRotation.RotationKeepsExtremes` | src/visualization/optimized_state_trajectory_visualization.cpp:95-101 | rotation keeps the highest and the lowest channel |
| `HueRotation.GreyIsGrey` | src/visualization/optimized_state_trajectory_visualization.cpp:35-101 | a grey has no hue and no saturation, and no rotation changes it |
| `LowPass.OutputsStayInHull` | include/humanoid_common_mpc/reference_manager/BreakFrequencyAlphaFilter.h:48-61 | for any call times outputs stay between the initial value and the inputs |
| `LowPass.KeepsHullExactlyWhenFading` | include/humanoid_common_mpc/reference_manager/BreakFrequencyAlphaFilter.h:48-61 | no call takes an output past its last value and its input if and only if the time constant is positive or without end |
| `LowPass.NegativeOvershoots` | include/humanoid_common_mpc/reference_manager/BreakFrequencyAlphaFilter.h:45-46 | the failing family: with a negative break frequency one call steps to twice its input |
| `LowPass.ErrorIsBounded` | include/humanoid_common_mpc/reference_manager/BreakFrequencyAlphaFilter.h:56-60 | with a constant input the error after elapsed T is at most tau / (tau + T) of the first, however T is split |
| `LowPass.BoundIsAttained` | include/humanoid_common_mpc/reference_manager/BreakFrequencyAlphaFilter.h:56-60 | a single call attains that bound |
| `LowPass.Filter.constructor` | include/humanoid_common_mpc/reference_manager/BreakFrequencyAlphaFilter.h:45-46 | for any break frequency: the time constant is the inverse of 2 pi times it, without end at zero, and positive or without end exactly when the frequency is not negative |
| `LowPass.Filter.GetFilteredVector` | include/humanoid_common_mpc/reference_manager/BreakFrequencyAlphaFilter.h:48-61 | one call on the fields equals the step the bounds are about; the first call and one with time gone back only restart the clock |
| `LowPass.Filter.Reset` | include/humanoid_common_mpc/reference_manager/BreakFrequencyAlphaFilter.h:63-67 | the value is replaced and the clock restarts at the next call |
| `DiagnosticsRecorder.BuildStateSchema` | src/humanoid_centroidal_mpc/centroidal_mpc_diagnostics.cpp:140-221 | the state column names, in order, for any contacts and joints |
| `DiagnosticsRecorder.RecordState` | src/humanoid_centroidal_mpc/centroidal_mpc_diagnostics.cpp:325-460 | for a call that became a sample (see `DiagnosticsSampling.Sampler.Due`): on every branch the cursor ends at the declared width and each cell holds the quantity its column stands for, or is unset |
| `DiagnosticsRecorder.PutMomenta` | src/humanoid_centroidal_mpc/centroidal_mpc_diagnostics.cpp:385-401 | the three momentum blocks, or eighteen unset cells |
| `DiagnosticsRecorder.PutContact` | src/humanoid_centroidal_mpc/centroidal_mpc_diagnostics.cpp:418-430 | the fifteen cells of one contact, zero when it is out of range |
| `DiagnosticsRecorder.Recorder.Put` | src/humanoid_centroidal_mpc/centroidal_mpc_diagnostics.cpp:68-90 | values go into consecutive cells behind an advancing cursor |
| `DiagnosticsRecorder.Recorder.PutJoints` | src/humanoid_centroidal_mpc/centroidal_mpc_diagnostics.cpp:441-449 | a missing joint value leaves its cell unset and still advances the cursor |
| `DiagnosticsRecorder.AddContacts` | src/humanoid_centroidal_mpc/centroidal_mpc_diagnostics.cpp:186-196 | the names of the contact columns, in a loop over the frames |
| `DiagnosticsSampling.RateIsKept` | src/humanoid_centroidal_mpc/centroidal_mpc_diagnostics.cpp:330-337 | between two samples lie at least as many periods as there are samples from the one on, for calls at any times |
| `DiagnosticsSampling.LateCallsAreSampled` | src/humanoid_centroidal_mpc/centroidal_mpc_diagnostics.cpp:332-337 | a call a period or more after the last sample is one, so lateness is not carried on |
| `DiagnosticsSampling.Sampler.Due` | src/humanoid_centroidal_mpc/centroidal_mpc_diagnostics.cpp:330-337 | the head of both recorders on the fields: closed or disabled logs take nothing, and a taken call sets the next due time |
| `DiagnosticsSampling.Sampler.Start` | src/humanoid_centroidal_mpc/centroidal_mpc_diagnostics.cpp:269-283 | after starting an enabled log the next call is a sample |
| `DiagnosticsCost.BuildCostSchema` | src/humanoid_centroidal_mpc/centroidal_mpc_diagnostics.cpp:223-267 | the cost column names, in order, for any running and terminal terms |
| `DiagnosticsCost.RecordCost` | src/humanoid_centroidal_mpc/centroidal_mpc_diagnostics.cpp:514-563 | the cursor ends at the declared width and each cell holds the quantity its column stands for |
| `DiagnosticsCost.PutEntries` | src/humanoid_centroidal_mpc/centroidal_mpc_diagnostics.cpp:540-551 | twelve entries, the ones a short vector lacks left unset |
| `DiagnosticsCost.PutHealth` | src/humanoid_centroidal_mpc/centroidal_mpc_diagnostics.cpp:525-537 | the nine solver cells, or nine unset ones |

## Left out

- `stop_solver_thread` and activation are single steps once their wait is over: an access of a service between their stores has the effect it would have before or after them. An activation that fails does so after the resets it starts with.
- Sequential consistency is taken for granted: weak memory orders are not modelled, and reals stand for floating point except for the explicit 1e-10 and 1e-12 of the terrain.
- The tilt angle and the standard deviations of the filter are inputs of a tick; the vector norm and the exponential in the weight of the settle filter are parameters. A deviation that is not a number is not modelled.
- OCS2, Pinocchio, Eigen solves and inverses and the external invariant filter are arbitrary functions or inputs; a free-flyer base translates the contacts with it.
- The tick of the centroidal controller is modelled for its solver hand-over only: its bring-up phases before Converge are one phase, and its policy is swapped on the solver thread, so no claim is made about which plan a command evaluates.
- Files: the stream of `writerLoop` failing to open, and flushing; the text of the file is the state.
- Number formatting and parsing are arbitrary functions on text without separators; `Table` indexing by name is not modelled.
- CsvRoundTrip.Read: takes a line without quotes, because the logger writes none; quoted csv fields are not modelled.
- BringUpMachine.Controller.BuildObservation: says where an observation comes from, not what is in it: the assembled state, the unwrapped yaw and the velocity low-pass are left out, because nothing in the protocol reads them.
- The comment at line 180 of the logger says no new rows can be committed once `running_` is false; a row begun before and committed after can be, and the exact condition above follows the code.
- The comment in `analyze_diagnostics.py` says a short final line is padded instead of failing; a cut number such as a lone minus sign still fails, as `KilledRunReads` states.
- The header comment of `ContactWrenchMapper` says the sum of norms is smallest; the code minimises the sum of squared norms, and that is what is proved.
- `contact_ground_anchor_` being resized in `kinematicBaseHeight` when it does not match the contacts: after `initialize` it always does.
- Stance flags folded per foot in the invariant filter wrapper, its lever-arm velocity and its diagnostics.
- `remapToEstimatorOrder` and forward kinematics: one arbitrary function of orientation and joints.
- The noise matrices of the linear filter are filled with the nominal value in one go before their blocks are scaled, and the foot measurements are filled in a loop of their own.
- Terrain: the MJCF, URDF and XML text; the random generator, whose draws are arbitrary values of their range; `math.sin`, of which nothing is used; and the checks that values are finite numbers of the right length.
- LowPass.Filter.GetFilteredVector: leaves out the call that divides by zero, which takes a negative break frequency and a call exactly minus its time constant after the last.
- LinearKf.Estimator.UpdateImpl: takes the contact flags per point; the overload that marks every point as planted only passes a list of true.
- Diagnostics: the evaluation of cost terms and the momentum map are inputs; the momentum vectors have six entries each, and the arrays of a contact have the length of its innovations.
- Gait schedules, reference managers, velocity clamps, mode numbers, the figure-eight curve, ROS plumbing and the GUI: easy or not decided by the code shown.
