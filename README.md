# Single-intersection traffic simulation, modelled in Dafny

This project models the logic of a single-intersection traffic simulation. Four cooperating pieces make up the core.

- **Signal controller.** Cycles through the phases east-west green, east-west yellow, north-south green and north-south yellow. Each phase has a timer. The green duration is either fixed or stretched when the queue of waiting vehicles on the axis that has right of way is long.
- **Vehicle agent.** Ordinary vehicles (cars, trucks, sports cars) and ambulances drive in four lanes. Lanes 0 and 1 carry rightbound traffic, lanes 2 and 3 leftbound traffic. Each vehicle:
  - scans for the nearest leader in its lane;
  - picks a target speed, in this order: light braking, then car following, then free flow;
  - brakes harder than it accelerates;
  - moves, and marks itself once it has passed the intersection;
  - may change into the other lane of its pair.
  An ambulance slows only for red. It makes the close vehicles ahead of it in its lane attempt a lane change.
- **Pedestrian agent.** A pedestrian waits at the crosswalk, crosses during a north-south phase, and is done at the far kerb.
- **Orchestrator.** One tick of the simulation runs in this order:
  1. the light updates;
  2. each vehicle updates, followed at once by its optional lane-change attempt;
  3. the pedestrians update;
  4. off-screen vehicles are dropped, and those that had passed the intersection are counted;
  5. finished pedestrians are dropped;
  6. the two spawn timers run.
  The orchestrator also provides the average speed and the queue length as metrics, the time-scale keys, pausing and reset.

Files and modules:

- `settings.dfy` (`Settings`): the configuration constants as one `Config` value, with the sign assumptions the proofs use.
- `traffic_light.dfy` has two modules:
  - `Signals`: the phase values, the colour query and the transition rule;
  - `TrafficLights`: the queue count and the `TrafficLight` class.
- `vehicle.dfy` (`Vehicles`): vehicles as records, and every step of their update as a function.
- `pedestrian.dfy` (`Pedestrians`): the pedestrian state machine, and the `Pedestrian` class.
- `simulation.dfy` (`Simulation`): the `TrafficSimulation` class and the tick, stated through specification functions.

Design of the model:

- The objects whose fields the program updates in place are classes: the light, a pedestrian and the simulation.
- Their methods are proved against pure specification functions, and the properties are proved about those functions.
- Vehicles are records held in a sequence. Updating a vehicle's fields means replacing its record at its index. The program's identity test between vehicles becomes index equality.
- Every random draw is an explicit parameter:
  - the class roll, the lane choice and the direction roll of a spawn;
  - the 1% lane-change roll per vehicle;
  - the 60% pedestrian roll, with the side and direction of the new pedestrian.
- The frame time `dt` is a parameter. `TrafficSimulation.Update` requires it to be non-negative, as a frame time is.

## Model

| member | source | states |
|---|---|---|
| Signals.GetLightState | traffic_light.py:82-91 | green exactly in ew_green, yellow exactly in ew_yellow, red exactly in the two north-south phases, whatever the direction argument |
| Signals.Advance | traffic_light.py:35-54 | the phase stays or moves to its successor in the cycle; it moves exactly when the timer has reached the phase's duration; a move resets the timer to 0, otherwise the timer is kept |
| Signals.CycleOfFour | traffic_light.py:35-54 | four transitions return to the starting phase, each step moving one position along the cycle |
| TrafficLights.QueuesPartitionWaiting | traffic_light.py:62-69 | the east-west and north-south queues together count every waiting vehicle exactly once |
| TrafficLights.AxisQueueExtremes | traffic_light.py:62-69 | an axis queue is 0 exactly when no vehicle of that axis is slow and near, and counts every vehicle exactly when all are |
| TrafficLights.AdaptiveGreen | traffic_light.py:71-80 | the adaptive green time is the base time or 1.5 times it, the longer one exactly when the current axis's queue exceeds the threshold |
| TrafficLights.GreenTime | traffic_light.py:29-33 | in fixed mode the green time is the configured green time; in either mode it is one of the two durations |
| TrafficLights.PhaseAfter | traffic_light.py:24-54 | one update moves at most one step along the cycle; yellow ends at the yellow time; green ends at the fixed green time in fixed mode and at the adaptive time in adaptive mode; without a move the timer grows by exactly dt times the time scale, with a move it is 0 |
| TrafficLights.TrafficLight.constructor | traffic_light.py:11-14 | a fresh light is in ew_green, timer 0, fixed mode |
| TrafficLights.TrafficLight.CalculateAdaptiveTime | traffic_light.py:56-80 | the counting loop returns the adaptive green time of the current phase; nothing is changed |
| TrafficLights.TrafficLight.Update | traffic_light.py:24-54 | the new phase and timer are those of `PhaseAfter`; the mode flag is untouched |
| TrafficLights.TrafficLight.ToggleAdaptive | traffic_light.py:93-95 | only the mode flag changes, and it flips (so two toggles restore it) |
| Vehicles.Create | vehicle.py:13-29 | a new vehicle takes its dimensions and dynamics from its class table, starts at exactly 80% of its top speed aiming for the top speed, with no cooldown and both flags clear |
| Vehicles.FrontX | vehicle.py:38-40 | the program's front is the left end of the occupied rectangle |
| Vehicles.DistanceToVehicle | vehicle.py:120-125 | the gap runs from this vehicle's leading edge (right end rightbound, left end leftbound) to the other vehicle's trailing edge |
| Vehicles.DistanceToLight | vehicle.py:127-134 | the distance runs from the leading edge to the stop line of the vehicle's own approach |
| Vehicles.FrontIsLeadingOnlyLeftbound | vehicle.py:38-40 | for a rightbound vehicle the program's front lies a length behind its leading edge; for a leftbound one it is the edge used by the stop-line distance |
| Vehicles.NearestAmong | vehicle.py:104-118 | a found index is another vehicle in the same lane and direction with a positive gap |
| Vehicles.NearestAhead | vehicle.py:104-118 | the same, over the whole list |
| Vehicles.NearestAmongIsNearest | vehicle.py:104-118 | nothing is found exactly when there is no candidate; otherwise the found gap is the smallest and no earlier candidate is as close (ties go to the earliest) |
| Vehicles.FindVehicleAhead | vehicle.py:104-118 | the scan with its running minimum returns exactly the nearest candidate, or none when there is none; nothing is changed |
| Vehicles.CooledDown | vehicle.py:46-48 | a positive cooldown drops by the elapsed time without clamping at zero; nothing else changes |
| Vehicles.TargetSpeed | vehicle.py:62-86 | in the braking zone the target is 0 within 60 units of the line and `max_speed*(ld-10)/100` between 60 and 100, whatever the leader; otherwise 90% of the leader's speed below the safe distance, the leader's speed below twice the safe distance, the top speed beyond that or without a leader; so a close leader is never aimed past and one inside the safe distance is undercut; never negative, above the top speed only when following a faster leader |
| Vehicles.LightBeforeLeader | vehicle.py:62-70 | within 100 units of a red or yellow light the leader is not consulted |
| Vehicles.FarLeaderIgnored | vehicle.py:76-84 | a leader at twice the safe distance or more gives the same target as no leader |
| Vehicles.SpeedStep | vehicle.py:88-93 | the new speed lies between the old speed and the target, never overshoots and never goes below zero; it rises by at most acceleration times dt and falls by at most 1.5 times that; a full step is taken unless it would pass the target (or zero when braking), where it stops |
| Vehicles.Moved | vehicle.py:95-102 | x changes by exactly speed times dt times direction; the pass flag is set once x is past the far edge of the intersection and is never cleared |
| Vehicles.Drive | vehicle.py:88-102 | the motion keeps lane, class, dimensions, direction, cooldown and stop flag, records the target, responds to it by `SpeedStep`, moves by the new speed, sets the pass flag exactly when it was set or the far edge is now passed, and keeps the vehicle in its lane group with a non-negative speed |
| Vehicles.Decide | vehicle.py:50-86 | the decision step changes only the target speed and the stopped-at-light flag; the target is `TargetSpeed` for the stop-line distance, the red/yellow check within 150 units and the leader found by the scan; the flag is raised in the hard braking zone, never raised outside the 150-unit red/yellow zone, kept while a leader exists, and otherwise cleared beyond 50 units of the line, even in the tick that raised it |
| Vehicles.StepVehicle | vehicle.py:42-102 | an ordinary vehicle's update keeps its body and lane, counts down the cooldown, chooses its target by `TargetSpeed` from the light and the nearest leader and its stop flag as `Decide` does, both on the cooled-down list, responds by `SpeedStep`, moves by its new speed, and sets the pass flag exactly when it was set or the far edge is now passed |
| Vehicles.LaneToTry | vehicle.py:175-186 | a lane is tried exactly from lanes 0-1 rightbound and 2-3 leftbound; it is the other lane of the same pair (0 and 1, or 2 and 3) |
| Vehicles.CanChangeLane | vehicle.py:136-162 | the early-exit scan answers exactly the eligibility rule: false with a running cooldown, for a lane out of range, or when an overlapping same-direction vehicle in that lane is closer than the minimum gap; nothing is changed |
| Vehicles.RelanedKeepsSane | vehicle.py:188-193 | a lane move keeps the vehicle in its direction's lane group with its class and direction |
| Vehicles.LaneChangeStep | vehicle.py:164-193 | the vehicle changes only with a leader no farther than twice the safe distance and an eligible paired lane, and then always changes: the lane flips within the pair, y is re-centred and the cooldown restarts |
| Vehicles.ClearPathFrom | vehicle.py:280-291 | the ambulance's pass only touches non-ambulance vehicles in its lane and direction within 0 to 150 units ahead, keeps every vehicle in its lane group, and leaves the ambulance itself unchanged |
| Vehicles.ClearPathAttempts | vehicle.py:280-291 | every vehicle the pass selects ends up as the result of its own lane-change attempt on the list as the earlier attempts in list order left it |
| Vehicles.AmbulanceTarget | vehicle.py:246-265 | half the top speed within 60 units of a red light (yellow does not count); otherwise 95% of the leader's speed exactly when the leader is closer than half the safe distance; the top speed in every other case; without a leader never below half the top speed |
| Vehicles.AmbulanceStep | vehicle.py:233-278 | the ambulance's update counts down its own cooldown, keeps its stop flag, leaves the other vehicles exactly as its clearing pass left them, takes its target by `AmbulanceTarget` on the cleared list, responds by `SpeedStep`, moves, and sets its pass flag exactly when it was set or the far edge is now passed |
| Vehicles.TickVehicle | simulation.py:119-120 | an ambulance takes `AmbulanceStep`, any other vehicle `StepVehicle`; no vehicle changes class or direction or loses its pass flag, and all stay in their lane groups with non-negative speeds |
| Vehicles.Accelerate | vehicle.py:88-102 | the speed response and move as the program performs them equal `Drive` |
| Vehicles.AdjustSpeed | vehicle.py:88-93 | the program's speed update equals `SpeedStep` |
| Vehicles.MoveAt | vehicle.py:95-102 | the program's move and pass marking equal `Moved` |
| Vehicles.ChooseTarget | vehicle.py:50-86 | the program's leader scan, light check and target choice equal `Decide` |
| Vehicles.ChooseAmbulanceTarget | vehicle.py:246-265 | the ambulance's light check and following rule equal `AmbulanceTarget` on the cleared list |
| Vehicles.CloseLeaderScenario | vehicle.py:71-75 | a leader 30 units ahead with a safe distance of 80 lowers the target to 90% of its speed, and any positive step then slows the follower |
| Pedestrians.SidesAreMirrored | pedestrian.py:22-27 | the top side starts above the road and heads below it, the bottom side the reverse, between the same two kerbs |
| Pedestrians.Step | pedestrian.py:37-59 | the state never goes back or skips crossing; a done pedestrian is unchanged; a waiting one keeps its y, adds the elapsed time, and starts crossing exactly when it has waited past the threshold during a north-south phase; a crossing one moves by speed times dt towards its target and is done exactly when it reaches or passes it |
| Pedestrians.Run | pedestrian.py:37-59 | over any run of updates, each frame with its own phase and scaled step, the state rank never decreases and rises by at most the number of updates |
| Pedestrians.RunRankPerUpdate | pedestrian.py:37-59 | along any run, each single update keeps the state or advances it by exactly one rank |
| Pedestrians.DoneIsFinal | pedestrian.py:41-59 | once done, no further updates, whatever their phases and steps, change anything |
| Pedestrians.TopCrossingMonotone | pedestrian.py:50-55 | a top-side crossing with positive steps only moves down the screen; while still crossing it has moved by its speed times the total elapsed time and has not reached the target |
| Pedestrians.Pedestrian.constructor | pedestrian.py:11-33 | a new pedestrian waits with its timer at 0; top starts above the road with its target below, bottom the reverse; x depends only on the direction |
| Pedestrians.Pedestrian.Update | pedestrian.py:37-59 | the update in place equals one `Step` of the pedestrian's progress; side, direction, x and target are constants |
| Pedestrians.Pedestrian.IsDone | pedestrian.py:87-89 | holds exactly in the done state, the last of the cycle |
| Simulation.ClassOf | simulation.py:59-70 | the class roll picks an ambulance below the ambulance chance, then a truck below 0.15, a sports car below 0.25, else a normal car (each an if-and-only-if) |
| Simulation.CreatedIsSane | simulation.py:59-70 | a created vehicle in its lane group satisfies the simulation's invariant under valid constants |
| Simulation.RightFleet | simulation.py:43-49 | the i-th initial rightbound vehicle is in lane 0 or 1 at x = 200i - 300 |
| Simulation.RightFleetFollowsDraws | simulation.py:43-49 | each initial rightbound vehicle takes its lane and class from its own draw and starts unpassed |
| Simulation.LeftFleet | simulation.py:51-57 | the i-th initial leftbound vehicle is in lane 2 or 3 at x = screen width - 200i + 300 |
| Simulation.LeftFleetFollowsDraws | simulation.py:51-57 | each initial leftbound vehicle takes its lane and class from its own draw and starts unpassed |
| Simulation.InitialFleet | simulation.py:40-57 | the initial fleet is the rightbound vehicles followed by the leftbound ones, all satisfying the invariant |
| Simulation.EntryPlan | simulation.py:74-86 | a direction roll below 0.5 enters rightbound in lane 0 or 1 at x = -100; otherwise leftbound in lane 2 or 3 at 100 past the right edge; the lane choice picks the second lane of the pair |
| Simulation.Spawned | simulation.py:72-99 | a spawn attempt appends at most one vehicle, exactly when no same-lane, same-direction vehicle is within 200 units of the entrance; the new vehicle has the planned lane, direction, x and class |
| Simulation.TickFrom | simulation.py:118-124 | the vehicle pass of a tick keeps every vehicle's class and direction, never clears a pass flag, and keeps the invariant of all vehicles |
| Simulation.RelanedKeepsSaneAt | simulation.py:122-124 | the optional lane change keeps the class, direction and pass flag, and the invariant of the vehicle making it |
| Simulation.Kept | simulation.py:131 | pruning never grows the list |
| Simulation.PassedCount | simulation.py:149-159 | the pass count never exceeds the number of vehicles |
| Simulation.KeptMembers | simulation.py:131 | pruning keeps exactly the vehicles that are not off screen |
| Simulation.KeptAppend | simulation.py:131 | pruning keeps the original order: pruning a concatenation concatenates the pruned parts |
| Simulation.PassedAmongRemoved | simulation.py:149-159 | only removed vehicles are counted: kept plus counted never exceeds the list |
| Simulation.PassedCountAppend | simulation.py:149-159 | the pass count of a list is the sum of the counts of its parts, so each removed vehicle that had passed counts once |
| Simulation.PassedCountExtremes | simulation.py:149-159 | nothing is counted exactly when no vehicle is both off screen and passed; every vehicle is counted exactly when all are |
| Simulation.KeptSane | simulation.py:131 | pruning keeps the invariant of all vehicles |
| Simulation.SpawnTimerAfter | simulation.py:136-140 | below the interval the timer only grows by the elapsed time; at the interval it restarts at 0 and the vehicles become `Spawned`, one vehicle appended exactly when the entrance is clear; the timer stays below its interval; the existing vehicles are untouched and the invariant is kept |
| Simulation.AvgSpeed | simulation.py:315-320 | the average is 0 for no vehicles, otherwise the sum of speeds divided by the count |
| Simulation.SumSpeedsBounds | simulation.py:319 | speeds in [0, top] sum to a value in [0, n times top] |
| Simulation.AvgSpeedBounds | simulation.py:315-320 | the average of speeds in [0, top] lies in [0, top] |
| Simulation.QueueCount | simulation.py:322-330 | the queue never exceeds the number of vehicles |
| Simulation.QueueCountExtremes | simulation.py:322-330 | the queue is 0 exactly when no vehicle is slow and near, and equals the count exactly when all are |
| Simulation.CalculateQueueLength | simulation.py:322-330 | the counting loop returns the queue count, between 0 and the number of vehicles; nothing is changed |
| Simulation.Faster | simulation.py:337-338 | UP raises the scale by one step, capped at the maximum: never more than a step, never above the maximum, short of a full step only at the maximum; a scale in range stays in range |
| Simulation.Slower | simulation.py:340-341 | DOWN lowers the scale by one step, floored at the minimum: never more than a step, never below the minimum, short of a full step only at the minimum; a scale in range stays in range |
| Simulation.ScaleStaysInRange | simulation.py:337-341 | any sequence of UP and DOWN presses keeps a scale that starts in range inside the range |
| Simulation.Stepped | simulation.py:127-128 | every pedestrian takes exactly one update, in list order |
| Simulation.Unfinished | simulation.py:134 | pruning never grows the pedestrian list |
| Simulation.UnfinishedMembers | simulation.py:134 | pruning keeps exactly the pedestrians that are not done |
| Simulation.UnfinishedNoneDone | simulation.py:134 | a pruned list holds no finished pedestrian |
| Simulation.UnfinishedIdempotent | simulation.py:134 | pruning twice drops nothing more |
| Simulation.UnfinishedAppend | simulation.py:134 | pruning keeps the order: pruning a concatenation concatenates the pruned parts |
| Simulation.PedestriansAfter | simulation.py:126-147 | the stepped and pruned list comes first in order; below the interval the timer only grows; at the interval it restarts at 0 and, with a roll below 0.6, exactly one new waiting pedestrian is appended, otherwise none; the timer stays below its interval |
| Simulation.PedestriansAfterMembers | simulation.py:127-147 | after a tick the list holds every pedestrian whose update left it unfinished, and besides them at most the one spawned pedestrian |
| Simulation.NoneDoneAfterTick | simulation.py:127-147 | after a tick no pedestrian in the list is done |
| Simulation.TrafficSimulation.constructor | simulation.py:15-38 | a fresh simulation runs unpaused at scale 1 with zero counters and timers, no pedestrians, a fresh light and the initial fleet, and satisfies the invariant |
| Simulation.TrafficSimulation.SpawnInitialVehicles | simulation.py:40-57 | the initial spawn appends the initial fleet |
| Simulation.TrafficSimulation.SpawnRightFleet | simulation.py:43-49 | the first loop appends the rightbound initial vehicles |
| Simulation.TrafficSimulation.SpawnLeftFleet | simulation.py:51-57 | the second loop appends the leftbound initial vehicles |
| Simulation.TrafficSimulation.SpawnVehicle | simulation.py:72-99 | the spawn method with its clearance scan equals `Spawned` |
| Simulation.TrafficSimulation.SpawnPedestrian | simulation.py:101-106 | exactly one new waiting pedestrian is appended |
| Simulation.TrafficSimulation.UpdateVehicle | vehicle.py:42-102 | an ordinary vehicle's update in place replaces it by `StepVehicle` and touches no other vehicle |
| Simulation.TrafficSimulation.AttemptLaneChange | vehicle.py:164-193 | the lane-change attempt in place replaces the vehicle by `LaneChangeStep` and touches no other vehicle |
| Simulation.TrafficSimulation.ClearPath | vehicle.py:280-291 | the ambulance's clearing loop in place equals `ClearPathFrom` |
| Simulation.TrafficSimulation.UpdateAmbulance | vehicle.py:233-278 | the ambulance's update in place equals `AmbulanceStep` |
| Simulation.TrafficSimulation.UpdateVehicles | simulation.py:118-124 | the vehicle loop, each update followed by its optional lane change, equals `TickFrom` |
| Simulation.TrafficSimulation.IsOffscreen | simulation.py:149-159 | holds exactly for a vehicle more than 100 units past the edge it drives towards; the pass counter rises by one exactly when such a vehicle had passed the intersection |
| Simulation.TrafficSimulation.PruneVehicles | simulation.py:130-131 | the vehicles become `Kept` of the old ones, and the pass counter rises by exactly `PassedCount` |
| Simulation.TrafficSimulation.UpdatePedestrians | simulation.py:126-128 | the pedestrian loop equals `Stepped` |
| Simulation.TrafficSimulation.PrunePedestrians | simulation.py:133-134 | the pedestrians become `Unfinished` of the old ones |
| Simulation.TrafficSimulation.Update | simulation.py:108-147 | paused, nothing changes; otherwise the clock advances by dt times the scale, the light follows `PhaseAfter` on the vehicles before the tick, the vehicles, pass counter and spawn timer follow `VehiclesStepped`, and the pedestrians and their timer follow `PedestriansAfter`, both under the new phase; the invariant is kept |
| Simulation.TrafficSimulation.Tick | simulation.py:112-147 | the unpaused tick, with the same outcome as `Update` |
| Simulation.TrafficSimulation.AdvanceAgents | simulation.py:118-147 | everything after the light's update: vehicles by `VehiclesStepped`, pedestrians by `PedestriansAfter`, the invariant kept |
| Simulation.TrafficSimulation.AdvanceVehicles | simulation.py:118-140 | the vehicle half of a tick equals `VehiclesStepped` and keeps the invariant |
| Simulation.TrafficSimulation.TickVehicleSpawn | simulation.py:136-140 | the vehicle spawn timer and the spawn attempt equal `SpawnTimerAfter` |
| Simulation.TrafficSimulation.AdvancePedestrians | simulation.py:126-147 | the pedestrian half of a tick equals `PedestriansAfter` |
| Simulation.TrafficSimulation.ResetSimulation | simulation.py:349-358 | both lists are emptied, counters and timers zeroed, a fresh light installed and the initial fleet respawned; pause and time scale are kept; the invariant holds |
| Simulation.TrafficSimulation.HandleKeypress | simulation.py:332-347 | SPACE flips the pause flag only; UP and DOWN step the scale within its bounds and change nothing else; A toggles only the light's mode; R resets and keeps the pause flag and scale; any other key changes nothing; the invariant is kept |

## Left out

- Drawing and pygame are left out. This covers every `draw` method, the UI text, fonts, colours, `get_rect`, the ambulance's siren animation and `main.py`'s window and event loop. None of them feeds the simulation's state.
- The `random` module is not modelled. Each draw is an explicit parameter instead: the spawn class, lane and direction, the lane-change rolls, and the pedestrian roll, side and direction.
- `config.py` is not part of this model. Every constant is a field of `Config`. `Config.Valid` states the sign assumptions the invariants need: positive intervals, positive safe distance and gaps, time-scale bounds around 1.0, and valid class tables.
- Floating-point rounding is not modelled: positions, speeds and timers are unbounded reals.
- The `float('inf')` sentinel of the leader scan is not modelled. The scan returns an `Option` instead.
- The pygame key constants are replaced by the `Key` datatype.
- `total_distance_traveled` is not modelled. The program initialises it and never updates it.
- Vehicles are records in a sequence, not objects. An update in place is a replacement at the vehicle's index. Object aliasing between vehicles is not captured; the program has none beyond the shared list.
- The simulation holds each pedestrian as a `Walker` value, not as a shared `Pedestrian` object. In-place update and aliasing of pedestrian objects inside the simulation are therefore not captured. `Pedestrian.Update` is proved equal to `Walk` on the object's value, and `SpawnPedestrian` stores the value of a freshly constructed `Pedestrian`.
- Simulation.TrafficSimulation.Tick runs the vehicles' prune and spawn before the pedestrians' update, whereas the program updates the pedestrians before it prunes and spawns the vehicles. The two halves touch disjoint state and draw on separate rolls, so the final state is the same.
- Simulation.TrafficSimulation.Update requires a non-negative frame time. This is the only restriction beyond the draw counts. It is what keeps speeds non-negative.
- Vehicles.Sane is the invariant the model keeps: lane group, non-negative speed and non-negative acceleration. Vehicles.TargetSpeed shows why `speed <= max_speed` is not part of it: a vehicle following a faster leader takes the leader's speed as its target, so the code does not keep the bound that a description of the system might suggest.
- Rightbound vehicles measure gaps and stop-line distances from `x + length`, while the program's `get_front_x` returns `x`. The model follows the code: the adaptive and displayed queues use `FrontX`, and Vehicles.FrontIsLeadingOnlyLeftbound states the difference.
- A vehicle counts as passed once it is beyond the far edge of the intersection, not the stop line, as the code does.
- A lane-change cooldown keeps counting down below zero. It is not clamped, as the code does.
