# Verified model of the multirotor controller

This project models the control core of a multirotor flight stack in Dafny and proves properties of
it over all inputs, all runs and all interleavings:

* the **flight owner** (`Flight`, `FlightRuntime`): one turn takes a batch of commands, merges deferred
  signals, ticks the health monitor and the active leaf, chooses a transition under a fixed preemption
  order, runs exit and entry, and keeps what it did not consume. The nine leaves and two monitors are
  in `TakeoffStates`, `GroundStates`, `LandingLeaf`, `Custom1`, `HealthMonitor` and `DebugMonitor`. Where a turn
  leads is in `FlightRoutes`, what that goes back to in `FlightHistory`, what it emits in `FlightOutputs` and,
  for the five tracking modes, in `TrackingOutputs` and `TrackingStays`;
* the **NMPC request and result protocol** (`ResultBuffer`, `NmpcProtocol`, `NmpcExecution`): owner turns,
  hand-off, solving, storing, stopping and re-entry as steps in any order (`NmpcSafety`, `NmpcTiming`), with
  stops inside a turn (`NmpcStops`), the order of jobs in `NmpcJobs`, and the answer to every
  result in `NmpcAnswers`;
* **deadlines and clocks** (`Custom1Wake`, `TrackingWake`, `FlightWake`, `WakeRuns`, `Clock`, `ClockWake`,
  `SensorStatistics`, `StatisticsRuns`);
* **planner segments** and the **reference runtime** (`Trajectory`, `TrajectoryRuns`, `Lifter`,
  `ReferenceRuntime`);
* **geometry** over exact reals (`Quaternion`, `Rotation`, `LineTrajectory`).

Objects that the original updates in place are classes here. Their methods are proved equal to functions
on values, and the theorems over runs are about those functions: `FlightRuntime.Update` is `Flight.Turn`,
`Custom1State.OnTick` is `Custom1.Tick`, the methods of `NmpcExecution` are the steps of `NmpcProtocol`.

Time is an integer count of nanoseconds (ticks). Where the original steps a double to its neighbour to
make a comparison strict, the model adds one tick; `ClockWake` treats the doubles themselves.

## Findings

Some statements one might expect do not hold of the code. Each is here with the condition under which it does.

* A turn may request arming and deliver a Land command at once, because the leaf ticks before the turn
  looks at its commands (`FlightArming.ArmsExactlyWhenDue`). The calm before an arming request
  therefore ends one turn earlier.
* At controller time 0 a wake-up can be late, because 0 stands for "never published". That is so exactly while
  DFBC follows a cached reference and last published at time 0 (`FlightWake.EarlyTurnIsSilent`); every other leaf
  and mode, SMC and the DFBC stream included, is right at time 0 too. A run reaches it only when its clock stands at 0
  from start-up on (`WakeWitness.LateInSomeRun`).
* A wake-up can be for nothing, in two cases and no other (`FlightWake.WakeHasWork`). The wake-up includes the end of
  a segment's window, but DFBC following segments, PX4_LOCAL under zero-order hold, and an SMC leaf with nothing left
  to hold do not react to it before their next publication (`WakeWitness.WindowClosesOnNothing`); nor does DFBC
  on a cached reference, should a segment be left in the buffer. And it includes the moment an NMPC output goes
  stale, when nothing may be due to be logged or published (`WakeWitness.OutputGoesStaleForNothing`).
* After the NMPC worker was stopped while the tracking leaf stays active, a failed request of the new
  generation emits the target of the old one again (`NmpcWitness.StopReemitsInSomeTrace`). It is still at
  most twice the result timeout old (`NmpcTiming.AttitudeIsFresh`).
* Requests are spaced only from the first one at a positive time on, because a request at time 0 leaves the base of the
  next one at "never": the turn that finds it answered sends again at once (`NmpcWitness.UnpacedFromZero`). Which turn
  sends is stated exactly (`NmpcTiming.SendsInRuns`), and the bound without that condition
  (`NmpcTiming.RequestsArePaced`).
* A position that SMC or a DFBC stream holds is given up for one tick after another when there is a segment to track
  again before its law was ever ready: the vehicle then hovers where it has drifted to
  (`TrackingOutputs.HeldPositionStays`, which holds without exception otherwise).
* The intervals of a receive window miss the time after a receipt at time 0
  (`SensorStatistics.IntervalsAddUp`), and a lift that ignores the velocity but not the acceleration does
  not compose in position (`Lifter.LiftComposes`).

## Model

| member | source | states |
|---|---|---|
| `FlightArming.ArmingIsEarned` | px4_multirotor_controller/src/uav/flight_state.cpp:210-254 | in any run, a request to arm comes only after a Takeoff command taken in Ready with the position distance available and not exceeded, then the required run of fresh ALTCTL frames (unless skipped), then of fresh OFFBOARD frames, with no safety signal, Land command or excessive distance in any turn from the takeoff to the one before the request |
| `FlightArming.ArmsExactlyWhenDue` | px4_multirotor_controller/src/uav/flight_state.cpp:123-132 | a turn asks to arm if and only if it begins in the arm-request leaf with the periodic request due, whatever it delivers; if it delivers Land it arms and lands |
| `FlightArming.OnlyArmLeafArms` | px4_multirotor_controller/src/uav/state_machine/takeoff_arm_request_state.cpp:45-55 | no other leaf, entry action or monitor requests arming |
| `FlightArming.InitHistory` | px4_multirotor_controller/src/uav/state_machine/takeoff_init_state.cpp:111-147 | in TakeoffInit the frame counter is the run of fresh ALTCTL frames since Ready was left, and every turn since was calm |
| `FlightArming.OffboardHistory` | px4_multirotor_controller/src/uav/state_machine/takeoff_offboard_request_state.cpp:58-91 | in TakeoffOffboardRequest the ALTCTL gate was passed and the counter is the run of fresh OFFBOARD frames since |
| `FlightLanding.LandingIsLeftOnTouchdown` | px4_multirotor_controller/src/uav/state_machine/landing_state.cpp:152-207 | Landing is left only for SelfCheck, exactly in a turn with a fresh, active, connected FCU report of being disarmed after five or more last poses that were all settled with no feedback loss; in the whole stay it asks to disarm at most once |
| `FlightLanding.LandingHistory` | px4_multirotor_controller/src/uav/state_machine/landing_state.cpp:152-179 | in Landing the confirmation counter is the trailing run of settled poses since entry, up to five, and the disarm latch counts the disarm requests made |
| `FlightLanding.NeverDisarmsInFlight` | px4_multirotor_controller/src/uav/state_machine/ready_state.cpp:12-24 | if the height changes only in turns with a new pose, no turn of any run requests disarming while the vehicle is airborne, from Ready, TakeoffInit or Landing |
| `FlightLanding.LandingTurn` | px4_multirotor_controller/src/uav/flight_state.cpp:305-311 | a turn that begins in Landing stays there or, on Touchdown, enters SelfCheck, and asks to disarm only by its tick |
| `FlightCommands.PostingAccepts` | px4_multirotor_controller/src/uav/flight_state.cpp:39-46 | posting accepts commands in order exactly until 4096 are pending and changes nothing else |
| `FlightCommands.DeliveredExactlyOnce` | px4_multirotor_controller/src/uav/flight_state.cpp:99-111 | after every turn of a run the accepted commands are the delivered ones followed by the pending ones: none lost, repeated or reordered, at most 64 in a turn |
| `FlightCommands.DeliveredInTurn` | px4_multirotor_controller/src/uav/flight_state.cpp:99-111 | the command with n others ahead of it is delivered n / 64 turns later, at place n % 64 |
| `FlightCommands.LandIsNeverIgnored` | px4_multirotor_controller/src/uav/flight_state.cpp:72-132 | a pending Land with n commands ahead is delivered n / 64 turns later, and after that turn the leaf is Landing unless that turn began in SelfCheck or Landing |
| `FlightCommands.LandAlwaysLands` | px4_multirotor_controller/src/uav/flight_state.cpp:85-88 | whatever signals and commands a turn has, Land leads every leaf but SelfCheck and Landing to Landing |
| `FlightContinuation.ContinuationEnds` | px4_multirotor_controller/src/uav/flight_state.cpp:140-143 | with no commands posted and nothing new from the sensors, at most one turn per 64 pending commands and three more ask for another turn |
| `FlightContinuation.ChoiceLowersRank` | px4_multirotor_controller/src/uav/flight_state.cpp:203-311 | without commands and news every transition lowers a rank of the leaf and the Track latch |
| `FlightContinuation.LatchClearInRuns` | px4_multirotor_controller/src/uav/state_machine/custom1_state.cpp:128-130 | in every state of a run no Track command is latched while the reference is tracked |
| `FlightRuns.DeferredNeverMatters` | px4_multirotor_controller/src/uav/flight_state.cpp:111-141 | a turn does exactly the same with and without its deferred signals, so no later leaf or later entry consumes one and none causes a transition; a deferred signal lives for one turn |
| `FlightRuns.TurnKeepsSound` | px4_multirotor_controller/src/uav/flight_state.cpp:133-143 | signals are deferred only by a turn with a transition, and between turns no leaf has posted its completion |
| `FlightRuns.ChoiceFacts` | px4_multirotor_controller/src/uav/flight_state.cpp:203-311 | a leaf never re-enters itself, consumes only a safety signal or its own completion, and is always left when it has completed |
| `FlightRoutes.TurnTakesRoute` | px4_multirotor_controller/src/uav/flight_state.cpp:203-311 | where a turn leads, for every leaf: it enters Landing, Hover, tracking, the next takeoff leaf, Ready or SelfCheck exactly under the condition of that route, written on the signals and commands of the turn, the sensors, the entry time, the comparison of the two positions and the waiting segment, with everything that comes before it in the order |
| `FlightRoutes.TransitionAnswers` | px4_multirotor_controller/src/uav/flight_state.cpp:72-97 | what a transition consumes: the first safety edge in the order of the rules, else the Land command, else the command or the completion of its route, else nothing |
| `FlightHistory.TurnLeavesOver` | px4_multirotor_controller/src/uav/flight_state.cpp:99-143 | a turn takes up to 64 commands from the front, defers exactly the completion of its leaf that its transition did not consume, and returns true exactly when it made a transition or left a command or a signal over |
| `FlightHistory.RequestsComplete` | px4_multirotor_controller/src/uav/state_machine/takeoff_arm_request_state.cpp:57-88 | OffboardReady is signalled exactly by a fresh FCU frame in OFFBOARD, ArmReady exactly by a fresh frame that says armed |
| `FlightHistory.GateOpens` | px4_multirotor_controller/src/uav/state_machine/takeoff_init_state.cpp:111-147 | AltctlReady is signalled exactly when the gate is skipped, or the fresh frames since Ready end in two ALTCTL ones |
| `FlightHistory.CompletionsArePostedOnce` | px4_multirotor_controller/src/uav/state_machine/takeoff_offboard_request_state.cpp:82-91 | a takeoff leaf that has posted its completion remembers it and never posts it again, however often it ticks |
| `FlightHistory.AscentEnds` | px4_multirotor_controller/src/uav/state_machine/takeoff_ascending_state.cpp:79-139 | AltitudeReached is signalled exactly when, within 30 s of the begin of the ascent, its new poses end in five that had arrived at the height of the setpoint; TakeoffTimeout exactly after those 30 s |
| `FlightHistory.FinishIsSaid` | px4_multirotor_controller/src/uav/state_machine/custom1_state.cpp:388-392 | ReferenceFinished is signalled exactly when NMPC, or DFBC on a cached reference, has no more of the reference left than its horizon or its next update needs |
| `FlightHistory.LatchIsHistory` | px4_multirotor_controller/src/uav/flight_state.cpp:270-289 | in every run Track is latched exactly when a turn that stayed in an ascent or in Hover had a Track command, and neither tracking nor Landing was entered since |
| `FlightOutputs.EntryEmits` | px4_multirotor_controller/src/uav/flight_state.cpp:123-131 | what each entry emits and which setpoint it leaves: climb to the takeoff altitude, hover here, or descend |
| `FlightOutputs.SetpointsAreSpaced` | px4_multirotor_controller/src/uav/state_machine/hover_state.cpp:60-80 | in every run a turn that stays in a leaf other than tracking hands out the setpoint exactly when a thirtieth of a second has passed since it last went out |
| `FlightOutputs.RequestsAreSpaced` | px4_multirotor_controller/src/uav/state_machine/takeoff_offboard_request_state.cpp:33-56 | in every run a request leaf asks for its mode, or for arming, exactly when three seconds have passed since it was entered or last asked |
| `FlightOutputs.OnlyLeavesAsk` | px4_multirotor_controller/src/uav/state_machine/takeoff_init_state.cpp:87-110 | no turn asks for a mode, or for arming, but for the one that its leaf is there for |
| `FlightOutputs.SetpointIsKept` | px4_multirotor_controller/src/uav/state_machine/takeoff_init_state.cpp:22-60 | all through a takeoff the setpoint is the point where it began, at the greater of the takeoff altitude and the height there; all through Hover it is the position where Hover was entered |
| `FlightOutputs.LandingFollowsHeight` | px4_multirotor_controller/src/uav/state_machine/landing_state.cpp:86-150 | in Landing the speed of descent is the one for the height at the last new pose since entry, and each setpoint that goes out has it |
| `FlightOutputs.LandingIsOverdue` | px4_multirotor_controller/src/uav/state_machine/landing_state.cpp:24-84 | in every run a landing is reported as overdue exactly from the first turn on that finds it lasting longer than its height at entry takes at 0.2 m/s plus 5 s, at most a minute |
| `FlightOutputs.ReportsAreSpaced` | px4_multirotor_controller/src/uav/state_machine/debug_monitor_state.cpp:25-46 | in every run the status goes out in the first turn and whenever 200 ms have passed since it last did, the sensor debug line whenever a second has |
| `FlightOutputs.EventsAreReported` | px4_multirotor_controller/src/uav/flight_state.cpp:111-127 | a turn reports events exactly when it took a command, heard a signal that was not deferred to it, or made a transition for neither |
| `FlightOutputs.EdgesInRuns` | px4_multirotor_controller/src/uav/flight_state.cpp:111-122 | the safety edges that a turn of a run hears are the ones that the samples of its turns raise in the health monitor |
| `FlightOutputs.SaturationIsHeard` | px4_multirotor_controller/src/uav/state_machine/health_monitor_state.cpp:110-120 | a saturation signal is heard exactly in a turn before which an IMU message arrived while PX4_LOCAL had a setpoint beyond the limit of acceleration |
| `FlightWake.EarlyTurnIsSilent` | px4_multirotor_controller/src/uav/flight_state.cpp:159-178 | after a turn that returned false, with no new input, a turn strictly before the wake-up makes no transition and emits no effect and no signal if and only if the owner is not following a cached DFBC reference with its last publication at time 0, in every leaf and tracking mode; when silent it leaves the whole state as it was, unless DFBC only now becomes ready to be entered or PVA_SMC has no paired sample |
| `FlightWake.WakeHasWork` | px4_multirotor_controller/src/uav/flight_state.cpp:159-178 | a turn at the wake-up, with no new input, emits, makes a transition or changes the state, except exactly when the owner tracks, nothing else is due, and all that happens is the closing of a window on a leaf that need not hold or publish, or the onset of a stale NMPC output that need not be logged or replaced |
| `FlightWake.IdleExactly` | px4_multirotor_controller/src/uav/flight_state.cpp:99-143 | after a turn that returned false, a turn at any later time with no new input does nothing at all if and only if no part of the owner has anything due then |
| `FlightWake.EarlyTurnsAreIdle` | px4_multirotor_controller/src/uav/flight_state.cpp:159-178 | so any number of turns before the wake-up leave the whole state of the owner as it was, when the wake-up is not late |
| `FlightWake.WakeMovesOn` | px4_multirotor_controller/src/uav/flight_state.cpp:159-178 | after any turn that returned false the wake-up lies strictly ahead, so none is armed again for the same work |
| `FlightWake.DeadlineAhead` | px4_multirotor_controller/src/uav/flight_state.cpp:145-157 | the deadline of a timed leaf lies ahead after a turn that stayed in it |
| `WakeRuns.UsableInRuns` | px4_multirotor_controller/src/uav/flight_state.cpp:99-143 | what the theorems about the wake-up assume holds before every turn of every run under a monotone clock, whatever segments, results, stops and references arrive between the turns |
| `WakeRuns.WakeUpsInRuns` | px4_multirotor_controller/src/uav/flight_state.cpp:159-178 | so in every run the wake-up after a turn that returned false lies ahead, and the next turn, before it and with nothing new, is silent if and only if the wake-up is not late |
| `WakeWitness.WindowClosesOnNothing` | px4_multirotor_controller/src/uav/state_machine/custom1_state.cpp:45-52 | a DFBC stream whose wake-up at the end of a window finds nothing to do |
| `WakeWitness.OutputGoesStaleForNothing` | px4_multirotor_controller/src/uav/state_machine/custom1_state.cpp:110-118 | an NMPC leaf whose wake-up at the onset of a stale output finds nothing to do |
| `WakeWitness.LateInSomeRun` | px4_multirotor_controller/src/uav/state_machine/custom1_state.cpp:696-699 | a run whose clock stands at 0 until the first tracking turn does reach a late wake-up |
| `FlightRuntime.FlightRuntime.Update` | px4_multirotor_controller/src/uav/flight_state.cpp:99-143 | the turn on objects leaves the state, effects and return value of the turn on values |
| `FlightRuntime.FlightRuntime.PostCommand` | px4_multirotor_controller/src/uav/flight_state.cpp:39-46 | a command is accepted if and only if fewer than 4096 are pending |
| `FlightRuntime.FlightRuntime.OnFreshImu` | px4_multirotor_controller/src/uav/flight_state.cpp:53-57 | an IMU message only adds its signals for the next turn |
| `FlightRuntime.FlightRuntime.ChooseTransition` | px4_multirotor_controller/src/uav/flight_state.cpp:72-97 | the choosers, one branch at a time, make the choice whose routes `FlightRoutes.TurnTakesRoute` states |
| `FlightRuntime.FlightRuntime.Defer` | px4_multirotor_controller/src/uav/flight_state.cpp:135-137 | the deferral loop keeps the leaf signals but for the selected one |
| `FlightRuntime.FlightRuntime.TakeBatch` | px4_multirotor_controller/src/uav/flight_state.cpp:99-110 | the loop takes the first 64 commands, or all of them, from the front |
| `FlightRuntime.FlightRuntime.Apply` | px4_multirotor_controller/src/uav/flight_state.cpp:123-131 | exit, entry time and entry action of a transition |
| `TakeoffStates.TakeoffInitState.OnTick` | px4_multirotor_controller/src/uav/state_machine/takeoff_init_state.cpp:87-147 | ALTCTL frames, mode requests and the one AltctlReady signal |
| `TakeoffStates.TakeoffInitState.OnEnter` | px4_multirotor_controller/src/uav/state_machine/takeoff_init_state.cpp:22-85 | the takeoff setpoint and the disarm request unless the gate is skipped |
| `TakeoffStates.TakeoffOffboardRequestState.OnTick` | px4_multirotor_controller/src/uav/state_machine/takeoff_offboard_request_state.cpp:33-91 | OFFBOARD frames, mode requests and the one OffboardReady signal |
| `TakeoffStates.TakeoffArmRequestState.OnTick` | px4_multirotor_controller/src/uav/state_machine/takeoff_arm_request_state.cpp:31-88 | arm requests, armed frames and the one ArmReady signal |
| `TakeoffStates.TakeoffAscendingState.OnTick` | px4_multirotor_controller/src/uav/state_machine/takeoff_ascending_state.cpp:35-139 | the timeout, the settled frames and the one AltitudeReached signal |
| `TakeoffStates.TakeoffAscendingState.OnEvent` | px4_multirotor_controller/src/uav/state_machine/takeoff_ascending_state.cpp:46-55 | Track is latched |
| `GroundStates.ReadyState.OnEnter` | px4_multirotor_controller/src/uav/state_machine/ready_state.cpp:12-25 | a disarm request unless the vehicle is airborne |
| `GroundStates.HoverState.OnEnter` | px4_multirotor_controller/src/uav/state_machine/hover_state.cpp:14-58 | the hover setpoint at the present position |
| `GroundStates.HoverState.OnTick` | px4_multirotor_controller/src/uav/state_machine/hover_state.cpp:60-80 | the setpoint at its interval |
| `LandingLeaf.LandingState.OnTick` | px4_multirotor_controller/src/uav/state_machine/landing_state.cpp:86-207 | descent velocity, publication, timeout report, confirmation, the single disarm request and Touchdown |
| `LandingLeaf.LandingState.OnEnter` | px4_multirotor_controller/src/uav/state_machine/landing_state.cpp:24-84 | the landing setpoint, limits and cleared latches |
| `LandingLeaf.LandingState.PostTouchdownOnce` | px4_multirotor_controller/src/uav/state_machine/landing_state.cpp:181-207 | Touchdown on a fresh disarmed report, else one disarm request |
| `DebugMonitor.DebugMonitorState.OnTick` | px4_multirotor_controller/src/uav/state_machine/debug_monitor_state.cpp:25-48 | the events when there are any, and two periodic groups of publications |
| `HealthMonitor.HealthMonitorState.OnTick` | px4_multirotor_controller/src/uav/state_machine/health_monitor_state.cpp:22-108 | timeout, estimate and limit edges and the comparison of the two positions, in source order; over runs they are those of `HealthRuns` |
| `HealthRuns.EstimateUnusableExactlyOnce` | px4_multirotor_controller/src/uav/state_machine/health_monitor_state.cpp:59-75 | in a maximal stretch of unusable control state the signal is raised exactly once if the stretch lasts the trip delay, and never otherwise |
| `HealthRuns.EstimateUnusableAtFirstTurnPastDelay` | px4_multirotor_controller/src/uav/state_machine/health_monitor_state.cpp:59-75 | it is raised exactly in the first turn at or past the delay |
| `HealthRuns.NoSignalWhileUsable` | px4_multirotor_controller/src/uav/state_machine/health_monitor_state.cpp:59-75 | it is never raised in a turn with a usable control state |
| `HealthRuns.LimitSignalOncePerViolation` | px4_multirotor_controller/src/uav/state_machine/health_monitor_state.cpp:77-105 | a fence or velocity signal is raised exactly in the first of each maximal run of violating new poses |
| `HealthRuns.FlagIsLastVerdict` | px4_multirotor_controller/src/uav/state_machine/health_monitor_state.cpp:77-105 | the remembered flag is the verdict of the last new pose |
| `HealthRuns.TimeoutIsRaisedOnLoss` | px4_multirotor_controller/src/uav/state_machine/health_monitor_state.cpp:45-57 | over any samples, each of the five timeouts is raised exactly when its stream is watched and inactive and was active at the last turn before that watched it |
| `HealthRuns.FcuTimeoutIsRaisedOnLoss` | px4_multirotor_controller/src/uav/state_machine/health_monitor_state.cpp:57 | for the FCU state that is a loss since the turn before, with every backend and source |
| `HealthRuns.DistanceIsLastComparison` | px4_multirotor_controller/src/uav/state_machine/health_monitor_state.cpp:28-43 | the distance is available exactly after a turn with a new position once both were received, and is exceeded exactly when the two positions of the last such turn are too far apart |
| `Custom1Wake.NmpcIdlesExactly` | px4_multirotor_controller/src/uav/state_machine/custom1_state.cpp:357-411 | NMPC: a tick with nothing new does nothing if and only if no timeout, reference end, request, log or publication is due |
| `Custom1Wake.NmpcMovesOn` | px4_multirotor_controller/src/uav/state_machine/custom1_state.cpp:100-125 | NMPC: after a tick the wake-up lies ahead |
| `Custom1Wake.SmcIdlesExactly` | px4_multirotor_controller/src/uav/state_machine/custom1_state.cpp:271-355 | SMC: a tick with nothing new does nothing if and only if no segment, update, log or publication is due, and once the window has closed no position is still to be held |
| `Custom1Wake.SmcMovesOn` | px4_multirotor_controller/src/uav/state_machine/custom1_state.cpp:65-78 | SMC: after a tick the wake-up lies ahead |
| `Custom1Wake.DfbcIdlesExactly` | px4_multirotor_controller/src/uav/state_machine/custom1_state.cpp:413-511 | DFBC, streaming or cached: a tick with nothing new does nothing but enter the backend if and only if nothing is due; the closing of a window alone is nothing, a publication at time 0 never is |
| `Custom1Wake.DfbcCacheMovesOn` | px4_multirotor_controller/src/uav/state_machine/custom1_state.cpp:79-98 | DFBC on a cached reference: after a tick the wake-up lies ahead |
| `Custom1Wake.DfbcStreamMovesOn` | px4_multirotor_controller/src/uav/state_machine/custom1_state.cpp:79-98 | DFBC following planner segments: after a tick the wake-up lies ahead |
| `Custom1Wake.Px4LocalIdlesExactly` | px4_multirotor_controller/src/uav/state_machine/custom1_state.cpp:229-269 | PX4_LOCAL: a tick with nothing new does nothing if and only if no segment, log or publication is due |
| `Custom1Wake.Px4LocalMovesOn` | px4_multirotor_controller/src/uav/state_machine/custom1_state.cpp:57-64 | PX4_LOCAL: after a tick the wake-up lies ahead |
| `Custom1Wake.PvaSmcIdlesExactly` | px4_multirotor_controller/src/uav/state_machine/custom1_state.cpp:212-227 | PVA_SMC: a tick with nothing new does nothing if and only if no segment and no publication is due; without a paired sample it can only promote |
| `Custom1Wake.PvaSmcMovesOn` | px4_multirotor_controller/src/uav/state_machine/custom1_state.cpp:53-56 | PVA_SMC: after a tick the wake-up lies ahead |
| `TrackingWake.TrackingMovesOn` | px4_multirotor_controller/src/uav/state_machine/custom1_state.cpp:18-126 | in every mode a tracking tick that ends nothing leaves the whole wake-up ahead, segment times and window ends included |
| `TrackingWake.TrackingIdlesExactly` | px4_multirotor_controller/src/uav/state_machine/custom1_state.cpp:189-210 | in every mode, when a tick at any later time with nothing new leaves leaf, shared data and outputs as they were |
| `TrackingWake.IdlesAtWake` | px4_multirotor_controller/src/uav/state_machine/custom1_state.cpp:18-126 | at the wake-up of the leaf there is work in every case but two: the closing of a window that needs no holding or publishing, and the onset of a stale output that needs no log or replacement |
| `TrackingWake.IdlesBeforeWake` | px4_multirotor_controller/src/uav/state_machine/custom1_state.cpp:18-126 | before the wake-up of the leaf there is none |
| `Custom1Wake.NextEndIsFirst` | px4_multirotor_controller/src/uav/active_trajectory_cache.cpp:195-233 | the time computed for the end of a reference is the first from now on at which no more than the limit is left, and there is none exactly when that never happens |
| `Custom1Frame.TickAppends` | px4_multirotor_controller/src/uav/state_machine/custom1_state.cpp:189-210 | a tracking tick only appends to what the turn has emitted and never reads it |
| `NmpcAnswers.TurnAnswers` | px4_multirotor_controller/src/uav/state_machine/custom1_state.cpp:357-411 | one NMPC turn in all, on the fields of the leaf: the reaction to the answer or to its absence past the deadline, then hovering without a reference or at its end or backing up while commands are stale, then perhaps a request; with the setpoint, the failure count, the last success and the one ReferenceFinished |
| `NmpcAnswers.TurnNumbers` | px4_multirotor_controller/src/uav/state_machine/custom1_state.cpp:567-584 | in such a turn a request takes the number after the newest, a deadline and its base (one period on, or now if that has fallen more than a period behind), and a generation that was ended is replaced by a fresh one with nothing in flight |
| `NmpcAnswers.ReferenceEndsOnce` | px4_multirotor_controller/src/uav/state_machine/custom1_state.cpp:647-676 | in every trace of the protocol a turn reports ReferenceFinished if and only if no more than the horizon and its margin is left of a finite reference and no earlier turn of the stay found that, whatever the solver answers |
| `NmpcAnswers.FailuresAreAnswered` | px4_multirotor_controller/src/uav/state_machine/custom1_state.cpp:538-558 | in every trace a fresh failure counts as one and emits first: the setpoint of the point of the reference when it could not be sampled before its end, else the last target if the last success of the stay is no older than the timeout, else the backup; a sampling failure at the end counts as none |
| `NmpcAnswers.SuccessIsHistory` | px4_multirotor_controller/src/uav/state_machine/custom1_state.cpp:560-564 | the time of the last success is the turn of this stay that last took a fresh success |
| `TrackingStays.EntersTracking` | px4_multirotor_controller/src/uav/state_machine/custom1_state.cpp:128-187 | entering tracking begins a generation with no result, drops the cached reference for the backends that follow one and the segments for a DFBC stream, sets the pace of the pass-through modes, and starts the leaf with nothing put out, taken over, held or finished, at the present position |
| `TrackingStays.LeavesTracking` | px4_multirotor_controller/src/uav/state_machine/custom1_state.cpp:705-730 | leaving tracking, for whatever leaf, ends the generation of its last tick, keeps no result of it, and touches nothing else that is shared |
| `TrackingStays.OutputsAreRemembered` | px4_multirotor_controller/src/uav/state_machine/custom1_state.cpp:128-145 | in every run the leaf remembers the position where it was entered and the time of the last turn of the stay that handed something out |
| `TrackingStays.Px4LocalIsSpaced` | px4_multirotor_controller/src/uav/state_machine/custom1_state.cpp:229-269 | so in every run PX4_LOCAL hands out a setpoint in a turn that stays exactly when a thirtieth of a second has passed since the last one, unless something else changes its pace |
| `TrackingOutputs.Px4LocalHandsOut` | px4_multirotor_controller/src/uav/state_machine/custom1_state.cpp:229-269 | PX4_LOCAL hands out a setpoint exactly when it is time: the segment it follows, moved to the present or held through its window, else hovering; and when it takes over and gives up |
| `TrackingOutputs.PvaSmcHandsOut` | px4_multirotor_controller/src/uav/state_machine/custom1_state.cpp:212-227 | PVA_SMC hands out its law's setpoint exactly with a segment and a paired sample, on a switch of segments or when it is time |
| `TrackingOutputs.SmcHandsOut` | px4_multirotor_controller/src/uav/state_machine/custom1_state.cpp:271-355 | SMC runs its law exactly when it has a segment to track, its streams were alive and an update is due; a failed law and a lost segment hold the position |
| `TrackingOutputs.DfbcStreamHandsOut` | px4_multirotor_controller/src/uav/state_machine/custom1_state.cpp:413-511 | DFBC on segments: the same with attitude commands, a known thrust and holding at the pace of publication |
| `TrackingOutputs.DfbcReferenceHandsOut` | px4_multirotor_controller/src/uav/state_machine/custom1_state.cpp:452-511 | DFBC on a cached reference: its law, the reference point when the law fails, hovering without reference or thrust, and the end reported once |
| `TrackingOutputs.HeldPositionStays` | px4_multirotor_controller/src/uav/state_machine/custom1_state.cpp:630-638 | over any ticks of a stay a held position is the one where the vehicle was when the hold began, however far it drifts, and every setpoint of the hold is that one but for a tick that tracks again before its law was ever ready |
| `Custom1State.Custom1State.OnTick` | px4_multirotor_controller/src/uav/state_machine/custom1_state.cpp:189-210 | the tick on objects is the tick on values, in each mode |
| `Custom1State.Custom1State.OnEnter` | px4_multirotor_controller/src/uav/state_machine/custom1_state.cpp:128-187 | a new generation, cleared fields and the per-mode preparation |
| `Custom1State.Custom1State.OnExit` | px4_multirotor_controller/src/uav/state_machine/custom1_state.cpp:705-730 | leaving invalidates the generation, stops the log timers, disarms, forgets the request in flight and leaves the strategy of the modes that have one |
| `Custom1State.Custom1State.HandleNmpc` | px4_multirotor_controller/src/uav/state_machine/custom1_state.cpp:357-411 | restart, consumption, timeout, planning |
| `Custom1State.Custom1State.ConsumeResult` | px4_multirotor_controller/src/uav/state_machine/custom1_state.cpp:513-565 | takes the newest answer once and answers it; what it leads to is stated by `NmpcAnswers.FailuresAreAnswered` and `NmpcAnswers.ReferenceEndsOnce` |
| `Custom1State.Custom1State.DispatchRequest` | px4_multirotor_controller/src/uav/state_machine/custom1_state.cpp:567-584 | the next request, its number, base time and deadline |
| `Custom1State.Custom1State.HandleSmc` | px4_multirotor_controller/src/uav/state_machine/custom1_state.cpp:271-355 | SMC tracking, waiting and holding |
| `Custom1State.Custom1State.HandleDfbcStream` | px4_multirotor_controller/src/uav/state_machine/custom1_state.cpp:413-511 | DFBC following planner segments |
| `Custom1State.Custom1State.HandleDfbcCache` | px4_multirotor_controller/src/uav/state_machine/custom1_state.cpp:413-511 | DFBC following the cached reference |
| `Custom1State.Custom1State.HandlePvaSmc` | px4_multirotor_controller/src/uav/state_machine/custom1_state.cpp:212-227 | PVA_SMC promotion and publication |
| `Custom1State.Custom1State.HandlePx4Local` | px4_multirotor_controller/src/uav/state_machine/custom1_state.cpp:229-269 | PX4_LOCAL pass-through, arming and hovering |
| `NmpcSafety.CopiesAreGenuine` | px4_multirotor_controller/src/uav/state_machine/custom1_state.cpp:513-565 | under every interleaving of turns, hand-offs, solves, stores, stops and re-entries the attitude output changes only by a copy of a result computed for the newest request, of the active generation, by a backend entered for that generation, and not consumed before |
| `NmpcSafety.ConsumedAtMostOnce` | px4_multirotor_controller/src/uav/nmpc_result_buffer.cpp:44-51 | consumed sequence numbers increase, within a stay in the leaf and across stays |
| `NmpcJobs.SolvedInOrder` | px4_multirotor_controller/src/driver/nmpc_execution.cpp:20-79 | under every interleaving the successful solutions come in the order of their requests and no request is solved twice, across stops, restarts and generations |
| `NmpcJobs.BackendIsKnown` | px4_multirotor_controller/src/driver/nmpc_execution.cpp:54-66 | under every interleaving an entered backend was entered for the generation that the worker believes, and a closed worker has no job and no entered backend |
| `NmpcJobs.StopCompletes` | px4_multirotor_controller/src/driver/nmpc_execution.cpp:14-19 | from every state of every trace a stop, with or without dropping the job that waits, is completed by at most eight steps of the worker itself and can then be followed by a start |
| `NmpcJobs.BufferKeepsNewest` | px4_multirotor_controller/src/uav/nmpc_result_buffer.cpp:31-42 | whatever results a generation is offered, and in whatever order, the buffer ends up with the first one offered for the newest request among those that fit, and with none only if none fits |
| `NmpcSafety.StepKeepsBackend` | px4_multirotor_controller/src/driver/nmpc_execution.cpp:14-79 | what the worker believes about the backend is right or concerns a generation that is never solved for again |
| `NmpcSafety.StepKeepsOwner` | px4_multirotor_controller/src/uav/state_machine/custom1_state.cpp:357-365 | what is in flight is the newest request, and only the generation of the owner can be active |
| `NmpcSafety.StepKeepsAnswers` | px4_multirotor_controller/src/driver/nmpc_execution.cpp:20-89 | every job answers a request that was sent, with its time stamp, and every successful result was computed for one |
| `NmpcTiming.AttitudeIsFresh` | px4_multirotor_controller/src/uav/state_machine/custom1_state.cpp:513-584 | with a positive result timeout T every emitted attitude command carries the last target that a turn of this stay copied, stamped at most 2T ago; it belongs to the active generation if and only if the worker was not stopped since that turn |
| `NmpcTiming.CopyHistory` | px4_multirotor_controller/src/uav/state_machine/custom1_state.cpp:357-365 | after the last copy of a stay its generation stands if and only if the worker was not stopped |
| `NmpcWitness.Copying` | px4_multirotor_controller/src/uav/state_machine/custom1_state.cpp:513-584 | a trace in which a request is sent, solved, stored and copied |
| `NmpcWitness.StopReemitsInSomeTrace` | px4_multirotor_controller/src/uav/state_machine/custom1_state.cpp:357-365 | a trace in which the worker is stopped after a copy and the old target is emitted again under a new generation |
| `NmpcStops.StopInsideATurn` | px4_multirotor_controller/src/uav/state_machine/custom1_state.cpp:357-411 | a turn in which the worker is stopped between two of its visits to the result buffer is a sequence of steps of the protocol, so the theorems over interleavings cover it |
| `NmpcStops.HandOffInSteps` | px4_multirotor_controller/src/driver/nmpc_execution.cpp:20-52 | a hand-off with nothing in between is the check of the generation followed by the submission |
| `NmpcTiming.FailureAfterStopReemits` | px4_multirotor_controller/src/uav/state_machine/custom1_state.cpp:357-365 | the other case occurs: after a stop while the leaf stays active, a failed first request of the new generation emits the target of the old one again |
| `NmpcTiming.RequestsArePaced` | px4_multirotor_controller/src/uav/state_machine/custom1_state.cpp:567-584 | a turn sends at most one request; from the first request of a generation at a positive time on, the n-th comes at least n - 1 control periods after it, and requests before it were all sent at time 0 or earlier (there are none if the first one was at a positive time) |
| `NmpcTiming.SendsInRuns` | px4_multirotor_controller/src/uav/state_machine/custom1_state.cpp:688-694 | in every run a turn that may send (the reference goes on, nothing stays in flight) does so if and only if its generation was begun anew, has sent nothing at a positive time yet, or a period has passed since the base of its last request |
| `NmpcTiming.SendsExactlyWhenDue` | px4_multirotor_controller/src/uav/state_machine/custom1_state.cpp:357-411 | the same for one turn: it sends if and only if it may and the base reads as never or lies a period back |
| `NmpcWitness.UnpacedFromZero` | px4_multirotor_controller/src/uav/state_machine/custom1_state.cpp:567-584 | a trace in which a request at time 0 is answered and the next one is sent one nanosecond later |
| `NmpcTurns.TurnFacts` | px4_multirotor_controller/src/uav/state_machine/custom1_state.cpp:357-411 | one turn in terms of the protocol: what is consumed, copied, emitted and sent |
| `NmpcExecution.NmpcExecution.Handle` | px4_multirotor_controller/src/driver/nmpc_execution.cpp:20-52 | a request for a dead generation is dropped, one that cannot be sampled or submitted is answered, else a job waits; the interleavings split it between check and submission |
| `NmpcExecution.NmpcExecution.Solve` | px4_multirotor_controller/src/driver/nmpc_execution.cpp:54-79 | the backend is exited and entered per generation before it computes |
| `NmpcExecution.NmpcExecution.Close` | px4_multirotor_controller/src/driver/nmpc_execution.cpp:14-19 | stopping, in any phase, closes the worker, with or without the job that waits, and invalidates every generation |
| `ResultBuffer.NmpcResultBuffer.Store` | px4_multirotor_controller/src/uav/nmpc_result_buffer.cpp:31-42 | a result is stored if and only if it is of the active generation, was requested, is canonical and newer |
| `ResultBuffer.NmpcResultBuffer.ConsumeNewerThan` | px4_multirotor_controller/src/uav/nmpc_result_buffer.cpp:44-51 | the stored result if it is of the active generation and newer |
| `ResultBuffer.NmpcResultBuffer.BeginGeneration` | px4_multirotor_controller/src/uav/nmpc_result_buffer.cpp:6-11 | a generation that was never used before, with no result |
| `TrajectoryRuns.OnlyDueSegmentsAreActive` | px4_multirotor_controller/include/px4_multirotor_controller/control/trajectory_lifter.h:231-258 | for backends with effective times, after any run under a monotone clock only admitted segments are in the slots and the active one is not from the future |
| `TrajectoryRuns.SlotsAreInOrder` | px4_multirotor_controller/include/px4_multirotor_controller/control/trajectory_lifter.h:231-258 | the active segment took effect no later than the waiting one was received |
| `TrajectoryRuns.DueIsPromotedNotOverwritten` | px4_multirotor_controller/include/px4_multirotor_controller/control/trajectory_lifter.h:247-258 | a segment that waits is promoted by an event at or after its time and replaced only by a successor received before it |
| `TrajectoryRuns.WaitingIsPending` | px4_multirotor_controller/include/px4_multirotor_controller/uav/mpc_trajectory_buffer.h:24-40 | a segment that waits is the pending one |
| `TrajectoryRuns.ArrivalsAreAdmitted` | px4_multirotor_controller/include/px4_multirotor_controller/driver/trajectory_ingress.h:25-48 | which messages are used, which are refused and for which reason, the segment that an admitted one becomes, and that a segment due on its receipt is made active first |
| `Lifter.WindowedLift` | px4_multirotor_controller/include/px4_multirotor_controller/control/trajectory_lifter.h:282-313 | a successful windowed lift integrates over a time within [0, period] the constant-acceleration motion of the segment on every axis |
| `Lifter.WindowedLiftSucceeds` | px4_multirotor_controller/include/px4_multirotor_controller/control/trajectory_lifter.h:268-298 | it succeeds exactly for a valid world segment with position, velocity and acceleration, from its time through its period; only DFBC passes its yaw on |
| `Lifter.PassThroughLift` | px4_multirotor_controller/include/px4_multirotor_controller/control/trajectory_lifter.h:307-312 | the pass-through modes use any valid segment, moved on from its time to the present on every axis, or under zero-order hold as it was at its start while its window is open; ignored fields come out as zero and the mask is the segment's, or the default one, with yaw as configured |
| `Lifter.LiftComposes` | px4_multirotor_controller/include/px4_multirotor_controller/control/trajectory_lifter.h:26-91 | lifting to a later time is lifting to an earlier one and coasting; for the position if and only if the velocity is used or the acceleration is zero |
| `Lifter.ZeroOrderHoldIsConstant` | px4_multirotor_controller/include/px4_multirotor_controller/control/trajectory_lifter.h:282-313 | a zero-order hold hands out the same setpoint throughout the window |
| `Trajectory.MpcTrajectoryBuffer.Promote` | px4_multirotor_controller/include/px4_multirotor_controller/control/trajectory_lifter.h:231-245 | the pending segment becomes active if and only if it is due |
| `Trajectory.MpcTrajectoryBuffer.CacheSample` | px4_multirotor_controller/include/px4_multirotor_controller/control/trajectory_lifter.h:247-258 | a due pending segment is promoted before its slot is taken |
| `Trajectory.MpcTrajectoryBuffer.Ingest` | px4_multirotor_controller/include/px4_multirotor_controller/driver/trajectory_ingress.h:25-48 | which messages are admitted and how the others are rejected |
| `Clock.DurationRoundTrip` | px4_multirotor_controller/include/px4_multirotor_controller/common/time.h:44-56 | from nanoseconds and back is the identity on durations, with an error exactly out of range |
| `Clock.NormalizingIsExact` | px4_multirotor_controller/include/px4_multirotor_controller/common/time.h:71-86 | normalising keeps the value, makes it canonical, and fails exactly out of range |
| `Clock.DurationArithmetic` | px4_multirotor_controller/include/px4_multirotor_controller/common/time.h:59-61 | sum, difference and negation are those of the integers, with an error exactly out of range |
| `Clock.DurationFromOwnNSec` | px4_multirotor_controller/include/px4_multirotor_controller/common/time.h:44-56 | a canonical duration is the image of its own nanoseconds |
| `Clock.TimeRoundTrip` | px4_multirotor_controller/include/px4_multirotor_controller/common/time.h:111-121 | from nanoseconds and back is the identity on times, with an error exactly out of range |
| `Clock.TimeFromOwnNSec` | px4_multirotor_controller/include/px4_multirotor_controller/common/time.h:111-121 | a canonical time is the image of its own nanoseconds |
| `Clock.TimeDifference` | px4_multirotor_controller/include/px4_multirotor_controller/common/time.h:130-132 | the difference of two times is exact although it is taken in unsigned arithmetic |
| `Clock.TimePlusDuration` | px4_multirotor_controller/include/px4_multirotor_controller/common/time.h:133-138 | adding a positive or negative duration is exact although the fields are added as unsigned numbers |
| `Clock.TimeMinusDuration` | px4_multirotor_controller/include/px4_multirotor_controller/common/time.h:139-139 | subtracting is exact except for a duration that cannot be negated |
| `Clock.DifferenceBridges` | px4_multirotor_controller/include/px4_multirotor_controller/common/time.h:130-138 | b + (a - b) is a whenever a - b exists, which is exactly when it is in range |
| `Clock.OrderAgrees` | px4_multirotor_controller/include/px4_multirotor_controller/common/time.h:144-147 | canonical values are ordered as their nanoseconds |
| `ClockWake.ControllerClockWakeNs` | px4_multirotor_controller/include/px4_multirotor_controller/common/time.h:183-196 | the least tick whose double reaches the deadline, for any grid of doubles, when both conversions round a product and then to the nearest |
| `ClockWake.RosStatisticsWakeNs` | px4_multirotor_controller/include/px4_multirotor_controller/common/time.h:200-214 | the least tick whose round trip through a double reaches the deadline, for any such conversions and grid whose gaps do not shrink |
| `ClockWake.TooEarly` | px4_multirotor_controller/include/px4_multirotor_controller/common/time.h:200-207 | the lower end of the search bracket cuts off no solution |
| `ClockWake.LateEnough` | px4_multirotor_controller/include/px4_multirotor_controller/common/time.h:200-207 | the upper end of the search bracket is a solution |
| `SensorStatistics.DeadlineStaysOnGrid` | px4_multirotor_controller/src/driver/sensor_statistics.cpp:9-13 | after any series of advances, at any times, the deadline is the first tick of the original grid after the latest of them |
| `SensorStatistics.WorksOncePerTick` | px4_multirotor_controller/src/driver/sensor_statistics.cpp:67-77 | an advance does its work exactly when a tick lies between the latest advance and now, and the next deadline is then ahead by at most one period |
| `SensorStatistics.WindowIsSuffix` | px4_multirotor_controller/src/driver/sensor_statistics.cpp:28-38 | the window holds exactly the last ten receipts, aligned with their intervals |
| `SensorStatistics.IntervalsAddUp` | px4_multirotor_controller/src/driver/sensor_statistics.cpp:28-38 | the intervals after the first add up to last minus first if and only if no later receipt follows one at time 0 |
| `SensorStatistics.VarianceFormula` | px4_multirotor_controller/src/driver/sensor_statistics.cpp:50-53 | the reported variance is the mean square less the squared mean |
| `SensorStatistics.Statistics.UpdateStatistics` | px4_multirotor_controller/src/driver/sensor_statistics.cpp:39-58 | the statistics of every stream with two or more receipts |
| `SensorStatistics.Statistics.Advance` | px4_multirotor_controller/src/driver/sensor_statistics.cpp:67-77 | updates and deadlines of one advance |
| `SensorStatistics.Statistics.Observe` | px4_multirotor_controller/src/driver/sensor_statistics.cpp:28-38 | one receipt enters one window |
| `SensorStatistics.Statistics.UpdateHeartbeats` | px4_multirotor_controller/src/driver/sensor_statistics.cpp:59-66 | every stream with a receipt gets the time since its last one, and is active exactly when that is at most 2.5 s |
| `StatisticsRuns.ActiveWhileAlive` | px4_multirotor_controller/src/driver/sensor_statistics.cpp:28-66 | after any series of receipts and advances a stream is active from a receipt on, and past a heartbeat exactly while its last receipt is at most 2.5 s old; the time since the last message is the one that the last heartbeat saw |
| `StatisticsRuns.NewWhenReceived` | px4_multirotor_controller/src/driver/sensor_statistics.cpp:28-38 | a stream is new exactly when it has received a message since the marks were last cleared, and its last message time is that of its last receipt |
| `StatisticsRuns.AdvanceDescribesWindow` | px4_multirotor_controller/src/driver/sensor_statistics.cpp:39-58 | an advance past a tick of 100 ms describes the last ten receipts: frequency times span is the number of intervals, the widest gap, the mean square less the squared mean, and the rate of valid frames; any other advance leaves them |
| `ReferenceRuntime.RunIsSound` | multirotor_reference_trajectory/src/multirotor_reference_trajectory_runtime.cpp:202-301 | in every run every held reference has an evaluator and Active holds one |
| `ReferenceRuntime.ActiveEffectsMatch` | multirotor_reference_trajectory/src/multirotor_reference_trajectory_runtime.cpp:220-225 | an active effect has the kind of the reference held, in state Active |
| `ReferenceRuntime.RequestsAreContained` | multirotor_reference_trajectory/src/multirotor_reference_trajectory_runtime.cpp:227-256 | a refused request changes only flags; an accepted one keeps its fields but for the start: the requested one if that is more than the lead time after receipt, else receipt plus lead time |
| `ReferenceRuntime.ExpiresExactlyAfterTimeout` | multirotor_reference_trajectory/src/multirotor_reference_trajectory_runtime.cpp:270-282 | Active is left for Ready exactly without a new reference and strictly after message start + duration + timeout, never with a duration that is not positive, and keeps the reference |
| `ReferenceRuntime.FlagsAreCollected` | multirotor_reference_trajectory/src/multirotor_reference_trajectory_runtime.cpp:227-268 | in every run the flags are those of the reference in use and of the requests refused since it was taken up |
| `ReferenceRuntime.ConfigurationIsTheLast` | multirotor_reference_trajectory/src/multirotor_reference_trajectory_runtime.cpp:173-191 | in every run the configuration in force is the last one given, with 10 Hz, 0.5 s and 0.2 s in place of what is not usable |
| `ReferenceRuntime.ReferencesAreRequested` | multirotor_reference_trajectory/src/multirotor_reference_trajectory_runtime.cpp:227-268 | in every run the reference that waits is the newest accepted request that no turn has seen, the one in use the newest that a turn has seen, both with the start of that rule |
| `ReferenceRuntime.PublishesExactly` | multirotor_reference_trajectory/src/multirotor_reference_trajectory_runtime.cpp:98-128 | which state a turn leads to, and that it publishes the reference and the status exactly on entry or replacement and whenever their period has passed |
| `ReferenceRuntime.GatesRememberPublications` | multirotor_reference_trajectory/src/multirotor_reference_trajectory_runtime.cpp:50-63 | in every run the gates hold the times of the last publications of this state |
| `ReferenceRuntime.WakeHasWork` | multirotor_reference_trajectory/src/multirotor_reference_trajectory_runtime.cpp:148-160 | a turn at the wake-up has something to emit |
| `ReferenceRuntime.NothingBeforeWake` | multirotor_reference_trajectory/src/multirotor_reference_trajectory_runtime.cpp:148-160 | a turn more than one tick before the wake-up does nothing, so no publication is more than one tick late |
| `ReferenceRuntime.WakeMovesOn` | multirotor_reference_trajectory/src/multirotor_reference_trajectory_runtime.cpp:148-160 | after a turn the wake-up lies ahead if and only if the turn did not leave an active reference that has expired already |
| `ReferenceRuntime.ReferenceTrajectoryRuntime.Update` | multirotor_reference_trajectory/src/multirotor_reference_trajectory_runtime.cpp:202-206 | the turn on objects is the turn on values |
| `ReferenceRuntime.ReferenceTrajectoryRuntime.Accept` | multirotor_reference_trajectory/src/multirotor_reference_trajectory_runtime.cpp:227-256 | acceptance and refusal on objects |
| `Quaternion.RoundTrip` | px4_multirotor_controller/tools/nmpc/math_utils.py:128-175 | the rotation of a unit quaternion converts back to it or its negation, with a non-negative scalar part, and to the same rotation |
| `Rotation.MatrixRoundTrip` | px4_multirotor_controller/tools/nmpc/math_utils.py:128-175 | every rotation matrix (orthonormal rows, determinant one) comes back: the quaternion converted from it has unit norm and a non-negative scalar part, and its rotation is that matrix |
| `Rotation.UnitQuaternionsRotate` | px4_multirotor_controller/tools/nmpc/math_utils.py:114-125 | unit quaternions give rotation matrices and nothing else |
| `Rotation.QuaternionRoundTrip` | px4_multirotor_controller/tools/nmpc/math_utils.py:114-175 | for any quaternion, unit or not, the matrix is a rotation and converts back to the normalised quaternion or its negation |
| `Rotation.ExtractedHasProducts` | px4_multirotor_controller/tools/nmpc/math_utils.py:132-174 | in each branch the products of the extracted components are the sums and differences of the entries |
| `Quaternion.ExtractsUpToSign` | px4_multirotor_controller/tools/nmpc/math_utils.py:128-175 | in each of the four branches the divisor is not zero and the result has the sign that makes the component it divides by positive |
| `Quaternion.PivotIsLarge` | px4_multirotor_controller/tools/nmpc/math_utils.py:132-174 | the branch always picks a component whose square is at least a quarter |
| `Quaternion.ProductOfNorms` | px4_multirotor_controller/tools/nmpc/math_utils.py:90-103 | the norm of a product is the product of the norms |
| `Quaternion.ProductOfRotations` | px4_multirotor_controller/tools/nmpc/math_utils.py:90-125 | for unit quaternions the rotation of the product is the product of the rotations |
| `Quaternion.DerivativeIsOrthogonal` | px4_multirotor_controller/tools/nmpc/math_utils.py:106-111 | the derivative is orthogonal to the normalised quaternion |
| `Quaternion.RotationExpands` | px4_multirotor_controller/tools/nmpc/math_utils.py:114-125 | moving a quaternion by a step along a direction changes the rotation by the step times the stated derivative, plus a remainder in its square |
| `Quaternion.KinematicsMatch` | px4_multirotor_controller/tools/nmpc/math_utils.py:106-111 | along the derivative the rotation changes by itself times the skew matrix of the body rate |
| `LineTrajectory.MeetsBoundary` | px4_multirotor_controller/tools/nmpc/references.py:141-160 | position, velocity and zero acceleration at both ends, for every positive duration |
| `LineTrajectory.DerivativesAreExact` | px4_multirotor_controller/tools/nmpc/references.py:153-160 | velocity, acceleration and jerk are the exact derivatives, with the remainder written out |
| `LineTrajectory.NeverOvershoots` | px4_multirotor_controller/tools/nmpc/references.py:153-160 | with zero end velocities an axis stays between its end points at every time |

## Left out

- Floating point: comparisons and sums of times are those of integers, geometry and setpoints use exact reals, and
  NaN and infinity appear only as flags of the input (`finite`, `localUsable`) that are decided outside the model.
- `sqrt` is not computed: lengths are compared by their squares, and the quaternion functions take the root as a
  parameter. `rotation_to_quat` is modelled for matrices that are rotations, where its SVD projection is the identity.
- Attitude quaternions and yaw of setpoints, and the field-by-field conversion of messages.
- The control laws (DFBC, SMC, NMPC solver), trajectory evaluators and validators and the hover-thrust estimator:
  what they answer is a parameter of each step.
- The original asynchronous worker library is not part of this model; it is known by the contract that
  `nmpc_execution.h` states (one worker, one waiting job, reject when busy). What the contract leaves open is left open
  here: a submission may be rejected at any time, and closing may drop the waiting job or not.
- `estimatorOk` and `localUsable` summarise the status flags of the two feedback sources; how those flags are set is
  not modelled.
- Counters and sequence numbers are unbounded; their 64-bit wrap-around is not modelled.
- The configuration does not change during a run of the flight owner.
- Logging appears only as the timers that space it, because those timers set deadlines.
- FlightRuntime.FlightRuntime.Update: the host that drains effects and signals between turns is not modelled, so
  effects accumulate in the controller object.
- Flight.NextWake: modelled as a function of the state only, as the original's `const` method reads it.
- The driver that composes the flight, statistics and hover-thrust wake-ups (`controller_driver.h`) is a minimum of
  three deadlines; the deadlines themselves are modelled.
- Configuration files, world boundary files, ROS and module plumbing, generated solver code, simulation and plotting.
