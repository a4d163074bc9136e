# ARGoS examples, modelled in Dafny

This project models the core of the ARGoS examples repository: the robot
controllers, the loop functions that drive experiments, the neural-network
parameter handling of the foot-bot neural controller, and the multi-process
genetic algorithm (MPGA) that evolves those parameters.

- **MPGA coordinator** (`Mpga`, `MpgaLoop`, `MpgaMain`). The population is a
  sequence of individuals, each a genome of reals and a score. The shared
  memory block holds one slot per individual: the genome followed by the
  score. The generation step is modelled: Evaluate copies the scores and
  sorts, Selection keeps the best two, Crossover uses a single cut point, and
  Mutation redraws genes with a probability. The worker's trial loop and the
  driver's generation loop are modelled too. The worker processes and their
  stop/continue signals become sequences of reports.
- **Controllers.**
  - `FootBotForaging`: the foraging state machine and its probability rules.
  - `WheelTurning` and `FootBotFlocking`: the three-mode turning mechanism and
    the flocking interaction vector (`Interaction`).
  - `EyeBotFlocking` and `EyeBotCircle`: the eye-bot state machines.
  - `FootBotCircle`: the counter encoded into the range-and-bearing payload.
  - `FootBotSynchronization`: the firefly-style flashing counter.
  - `FootBotGripping`: the gripping schedule.
  - `EPuckObstacleAvoidance`: the e-puck's closest-obstacle rule.
- **Loop functions.**
  - `ForagingLoop`: food pick-up, drop and energy accounting.
  - `TrajectoryLoop`: the waypoint lists.
  - `CustomDistributions` and `ScaleFree`: robot placement along a line, in
    clusters and as a scale-free network.
  - `ManualControl`: keyboard-driven control of a selected foot-bot.
- **Neural networks.**
  - `NeuralNetwork`: the input and output buffers.
  - `Perceptron`: the weight layout and forward pass.
  - `CtrnnMultilayer`: parameter loading and Euler integration of the
    multi-layer continuous-time network.

Each class keeps the fields the source updates in place. Its methods state
the new state, either directly or as a function of the old one, and lemmas
prove what the source promises about those functions. Several other things
become parameters:

- random draws;
- sensor readings;
- physics-engine answers such as `MoveEntity`;
- trigonometry, square roots, powers and exponentials.

Floating-point numbers are modelled as reals.

## Model

| member | source | states |
|---|---|---|
| Geometry.ClampLength2 | controllers/footbot_flocking/footbot_flocking.cpp:188-191 | a non-zero vector longer than the limit is rescaled to exactly the limit's length, along its own direction for a non-negative limit and against it for a negative one; a shorter vector and the zero vector are kept; the result is never longer than the limit's absolute value |
| WheelTurning.SoftSpeeds | controllers/footbot_foraging/footbot_foraging.cpp:308-314 | in a soft turn the inner wheel runs at base * (H - |angle|) / H for the hard-turn threshold H and the outer one at 2 * base minus that, so their mean is the base speed and both lie in [0, 2 * base] with the inner one the slower |
| WheelTurning.SoftTurnSharpens | controllers/footbot_foraging/footbot_foraging.cpp:308-314 | the wider the angle, the slower the inner wheel and the faster the outer one |
| WheelTurning.Steer | controllers/footbot_foraging/footbot_foraging.cpp:270-336 | the mode becomes hard turn exactly when the angle passes the hard threshold or the mode was hard and the angle still passes the soft threshold, and "no turn" exactly when it is not hard and the angle is within the no-turn threshold; going straight both wheels run at min(length, MaxSpeed); in a soft turn the inner wheel (the left one for a positive angle) runs at that speed times (H - |angle|) / H and the two keep that speed as their mean; a hard turn spins at MaxSpeed, the left wheel backwards for a positive angle |
| WheelTurning.SteerSettles | controllers/footbot_foraging/footbot_foraging.cpp:278-299 | steering again with the same heading leaves the mode and the speeds where the first step put them |
| FootBotForaging.ResultCode | controllers/footbot_foraging/footbot_foraging.h:308-312 | the payload byte of an exploration result is its position in the enumeration, below 3, and 0 exactly for "nothing to report" |
| FootBotForaging.Trunc | controllers/footbot_foraging/footbot_foraging.cpp:66-67 | truncation into the probability range [0, 1]: a value inside is kept, one above becomes 1, one below becomes 0 |
| FootBotForaging.Shift | controllers/footbot_foraging/footbot_foraging.cpp:398-403 | one probability rule: both probabilities end in [0, 1]; a non-negative delta never lowers an in-range probability and a non-positive one never raises it; no other field changes |
| FootBotForaging.SocialRule | controllers/footbot_foraging/footbot_foraging.cpp:362-376 | a packet reporting success or failure moves the probabilities and leaves them in [0, 1]; any other first byte changes nothing; only the probabilities ever change |
| FootBotForaging.SocialRules | controllers/footbot_foraging/footbot_foraging.cpp:360-377 | the social rule over all packets in reception order keeps probabilities in [0, 1] and changes no other field |
| FootBotForaging.NoBadNewsEncouragesExploring | controllers/footbot_foraging/footbot_foraging.cpp:360-377 | with non-negative social deltas, packets none of which reports a failure never lower the rest-to-explore probability nor raise the explore-to-rest one |
| FootBotForaging.NoGoodNewsEncouragesResting | controllers/footbot_foraging/footbot_foraging.cpp:360-377 | the mirror image: packets none of which reports a success never raise rest-to-explore nor lower explore-to-rest |
| FootBotForaging.FoodData.constructor | controllers/footbot_foraging/footbot_foraging.cpp:13-16 | no item carried, item index 0, no items delivered |
| FootBotForaging.FoodData.Reset | controllers/footbot_foraging/footbot_foraging.cpp:18-22 | the same three fields back to false, 0 and 0 |
| FootBotForaging.FootBotForaging.ExactlyOneState | controllers/footbot_foraging/footbot_foraging.h:215-234 | exactly one of IsResting, IsExploring and IsReturningToNest holds |
| FootBotForaging.FootBotForaging.constructor | controllers/footbot_foraging/footbot_foraging.cpp:119-151 | after initialisation the turning mode is "no turn" and the robot is in the reset state: resting in the nest with the initial probabilities and the resting time at its minimum, no food, red LEDs, nothing to report |
| FootBotForaging.FootBotForaging.Reset | controllers/footbot_foraging/footbot_foraging.cpp:179-190 | the state data go back to the reset state of lines 88-101, the food data are cleared, the LEDs turn red and the broadcast result is "none" |
| FootBotForaging.FootBotForaging.UpdateState | controllers/footbot_foraging/footbot_foraging.cpp:195-218 | the in-nest flag becomes true exactly when both back ground readings lie strictly between 0.25 and 0.75; no other state changes |
| FootBotForaging.FootBotForaging.SetWheelSpeedsFromVector | controllers/footbot_foraging/footbot_foraging.cpp:270-336 | the new mode and wheel speeds are those of the three-mode steering for the heading's angle and length |
| FootBotForaging.FootBotForaging.Rest | controllers/footbot_foraging/footbot_foraging.cpp:341-380 | after more than the minimum resting time a draw below rest-to-explore starts exploring with green LEDs; otherwise the resting time grows by one, the broadcast is cleared on the first resting step, and the social rule runs over every packet |
| FootBotForaging.FootBotForaging.Explore | controllers/footbot_foraging/footbot_foraging.cpp:385-471 | with food: food rule, success, blue, return to nest; without food past the minimum time: a low draw gives failure and return, a high one the reverse food rule; a robot that stays counts one more step, re-reads the nest sensors, applies the collision rule on a collision and steers along the diffusion vector, away from the light in the nest |
| FootBotForaging.FootBotForaging.ReturnToNest | controllers/footbot_foraging/footbot_foraging.cpp:476-508 | in the nest after more than the minimum search time: wheels stop, the last result is broadcast, LEDs red, state resting, result forgotten; otherwise the search time grows in the nest and restarts outside, and the robot steers towards the light |
| FootBotForaging.FootBotForaging.ControlStep | controllers/footbot_foraging/footbot_foraging.cpp:156-174 | the behaviour of the current state runs: a resting robot ends as Rest states (and leaves its wheels and last result alone), an exploring one as Explore states, a returning one as ReturnToNest states; so the state only stays or moves on along resting, exploring, returning, and probabilities that start in [0, 1] stay there |
| ForagingLoop.FirstItemWithin | loop_functions/foraging_loop_functions/foraging_loop_functions.cpp:153-166 | the item found is the lowest index from the start whose squared distance to the robot is below the squared radius; none is found exactly when no item is that close |
| ForagingLoop.FirstWithinFromStart | loop_functions/foraging_loop_functions/foraging_loop_functions.cpp:154-165 | an item within the radius with none closer than the radius before it is the one the scan picks |
| ForagingLoop.NoneWithin | loop_functions/foraging_loop_functions/foraging_loop_functions.cpp:154-166 | when no item is within the radius the scan picks nothing |
| ForagingLoop.Visit | loop_functions/foraging_loop_functions/foraging_loop_functions.cpp:129-168 | a carrying robot in the nest delivers: its item goes to the new draw, it stops carrying, its total and the collected count grow by one and the energy by the energy per item; a robot without food outside the nest picks the first item within the radius, which is hidden at (100, 100); every other robot (a carrying one outside the nest, an empty one in the nest or on its border, a carrying one on the border) leaves the items and its record unchanged; the item count never changes |
| ForagingLoop.Deliveries | loop_functions/foraging_loop_functions/foraging_loop_functions.cpp:131-133 | the number of robots that carry an item and stand in the nest, at most the number of robots |
| ForagingLoop.VisitAll | loop_functions/foraging_loop_functions/foraging_loop_functions.cpp:115-169 | robots visited in order, each seeing the items the previous ones left: one food record per robot, the item count kept, and every record still pointing at an existing item |
| ForagingLoop.VisitAllTotals | loop_functions/foraging_loop_functions/foraging_loop_functions.cpp:115-169 | after the visit each robot's total has grown by one exactly when it delivered |
| ForagingLoop.VisitAllLedger | loop_functions/foraging_loop_functions/foraging_loop_functions.cpp:115-169 | after the visit the collected count has grown by the number of deliveries and the energy by that many times the energy per item |
| ForagingLoop.VisitAllSnoc | loop_functions/foraging_loop_functions/foraging_loop_functions.cpp:115-169 | visiting one more robot extends the visit of the robots before it |
| ForagingLoop.VisitedEveryRobot | loop_functions/foraging_loop_functions/foraging_loop_functions.cpp:115-169 | once the loop has visited every robot, the ledger and the food records are those of VisitAll |
| ForagingLoop.Walking | loop_functions/foraging_loop_functions/foraging_loop_functions.cpp:122-123 | the number of robots that are not resting, at most the number of robots |
| ForagingLoop.CountWalking | loop_functions/foraging_loop_functions/foraging_loop_functions.cpp:110-123 | the walking count is the number of non-resting robots, and walking plus resting is the number of robots |
| ForagingLoop.Carries | loop_functions/foraging_loop_functions/foraging_loop_functions.cpp:129 | the food records of the robots, one per robot and in order |
| ForagingLoop.ForagingLoopFunctions.constructor | loop_functions/foraging_loop_functions/foraging_loop_functions.cpp:10-56 | the items sit at the given draws, the radius is stored squared, both counters start at 0 and the energies are the configured ones |
| ForagingLoop.ForagingLoopFunctions.Reset | loop_functions/foraging_loop_functions/foraging_loop_functions.cpp:61-75 | both counters back to 0 and every item re-placed at its draw |
| ForagingLoop.ForagingLoopFunctions.GetFloorColor | loop_functions/foraging_loop_functions/foraging_loop_functions.cpp:88-98 | grey in the nest (x below -1); elsewhere black exactly where some item is within the radius and white otherwise |
| ForagingLoop.ForagingLoopFunctions.VisitRobot | loop_functions/foraging_loop_functions/foraging_loop_functions.cpp:129-168 | the ledger and the robot's food record after one robot are those Visit states |
| ForagingLoop.ForagingLoopFunctions.VisitRobots | loop_functions/foraging_loop_functions/foraging_loop_functions.cpp:115-169 | the ledger and all food records after the loop are those of VisitAll |
| ForagingLoop.ForagingLoopFunctions.VisitNth | loop_functions/foraging_loop_functions/foraging_loop_functions.cpp:115-169 | visiting robot i extends the state after the robots before it by one Visit |
| ForagingLoop.ForagingLoopFunctions.PreStep | loop_functions/foraging_loop_functions/foraging_loop_functions.cpp:103-178 | every robot is visited as VisitAll states, walking and resting robots are counted, and the energy then falls by the walking count times the energy per walking robot, that product wrapping around 2^32 |
| Interaction.TowardLight | controllers/footbot_flocking/footbot_flocking.cpp:137-142 | a light sum of non-zero length is rescaled along its own direction to exactly the requested length; a zero sum is returned as it is |
| Interaction.VectorToLight | controllers/footbot_flocking/footbot_flocking.cpp:129-143 | the loop's result is the rescaled sum of all readings (TowardLight of their sum) |
| Interaction.Qualifying | controllers/footbot_flocking/footbot_flocking.cpp:156-178 | the qualifying count is at most the number of neighbours and is zero exactly when none qualifies, the sum then being the zero vector |
| Interaction.MeanInteraction | controllers/footbot_flocking/footbot_flocking.cpp:183-194 | the flocking vector is never longer than the maximum's absolute value, and is the zero vector when no neighbour qualifies |
| Interaction.QualifyingEqualContributions | controllers/footbot_flocking/footbot_flocking.cpp:156-178 | when every qualifying neighbour contributes the same vector, the sum is that vector times their count |
| Interaction.MeanOfEqualContributions | controllers/footbot_flocking/footbot_flocking.cpp:183-194 | the mean of equal contributions no longer than the maximum is that contribution |
| Interaction.QualifyingIgnoresOthers | controllers/footbot_flocking/footbot_flocking.cpp:163-165 | neighbours that do not qualify change neither the sum nor the count |
| Interaction.MeanInteractionIgnoresOthers | controllers/footbot_flocking/footbot_flocking.cpp:148-200 | the flocking vector depends only on the neighbours that qualify |
| Interaction.FlockingVector | controllers/footbot_flocking/footbot_flocking.cpp:148-200 | the loop's result is MeanInteraction of the neighbours: their mean contribution clamped to the maximum, or zero when there are none or none qualifies |
| FootBotFlocking.FootBotFlocking.constructor | controllers/footbot_flocking/footbot_flocking.cpp:64-107 | the turning mode starts as "no turn" and the reset state holds: camera on, beacon red |
| FootBotFlocking.FootBotFlocking.Reset | controllers/footbot_flocking/footbot_flocking.cpp:119-124 | the camera is enabled and the beacon LED is red |
| FootBotFlocking.FootBotFlocking.VectorToLight | controllers/footbot_flocking/footbot_flocking.cpp:129-143 | the light vector is the sum of the readings rescaled to a quarter of the maximum speed |
| FootBotFlocking.FootBotFlocking.FlockingVector | controllers/footbot_flocking/footbot_flocking.cpp:148-200 | the mean pull of the red blobs closer than 1.8 target distances, clamped to the maximum speed, zero when no blob counts |
| FootBotFlocking.FootBotFlocking.SetWheelSpeedsFromVector | controllers/footbot_flocking/footbot_flocking.cpp:205-271 | the new mode and wheel speeds are those of the three-mode steering for the heading |
| FootBotFlocking.FootBotFlocking.ControlStep | controllers/footbot_flocking/footbot_flocking.cpp:112-114 | the robot steers along the light vector plus the flocking vector |
| EyeBotFlocking.StateCode | controllers/eyebot_flocking/eyebot_flocking.h:134-138 | the broadcast code of a state is its enumeration value, below 3 |
| EyeBotFlocking.EyeBotFlocking.constructor | controllers/eyebot_flocking/eyebot_flocking.cpp:43-91 | the eye-bot starts in the start state and announces it |
| EyeBotFlocking.EyeBotFlocking.Reset | controllers/eyebot_flocking/eyebot_flocking.cpp:96-101 | back to the start state, announced in byte 0 |
| EyeBotFlocking.EyeBotFlocking.FlockDirection | controllers/eyebot_flocking/eyebot_flocking.cpp:152 | with no flocking neighbour, the move is the light vector alone |
| EyeBotFlocking.EyeBotFlocking.Flock | controllers/eyebot_flocking/eyebot_flocking.cpp:145-157 | the state becomes flocking (announced only on entry) and the relative move is the horizontal light-plus-flocking vector at zero height |
| EyeBotFlocking.EyeBotFlocking.TakeOff | controllers/eyebot_flocking/eyebot_flocking.cpp:125-140 | on entry the target is set above the current position at 3 m and commanded; once it is within 0.01 the eye-bot flocks in the same step; otherwise it keeps taking off |
| EyeBotFlocking.EyeBotFlocking.ControlStep | controllers/eyebot_flocking/eyebot_flocking.cpp:106-157 | the state never moves back and the start state is always left; from the start the target and the command become the point 3 m above the position; taking off keeps them; once the target is within 0.01 the eye-bot flocks in the same step, announcing it on entry, with the relative command the horizontal light-plus-flocking vector; otherwise it keeps taking off with the relative command unchanged, announcing it on entry; a flocking step keeps the target, command and broadcast and sets the relative command to that vector |
| EyeBotFlocking.TakeOffAtAltitude | controllers/eyebot_flocking/eyebot_flocking.cpp:129-137 | an eye-bot within 0.01 of the take-off altitude straight below its target has reached it |
| EyeBotCircle.ResetCircle | controllers/eyebot_circle/eyebot_circle.cpp:97-103 | reset takes off: the centre is 3 m above the current position, and the target and the command are that centre |
| EyeBotCircle.StepTransitions | controllers/eyebot_circle/eyebot_circle.cpp:70-167 | a step either stays or moves to the next state of take-off, leaving the centre, moving along the circle, going to the centre, landing; the states that wait for arrival move exactly when the target is within 0.01; landing changes nothing; the waypoint counter stays at most 20 |
| EyeBotCircle.StartNeverEntered | controllers/eyebot_circle/eyebot_circle.cpp:70-92 | the start state, which has no behaviour, is never entered again once left |
| EyeBotCircle.CircleLap | controllers/eyebot_circle/eyebot_circle.cpp:131-148 | starting on the circle at waypoint 0 the eye-bot spends exactly 20 steps on it with the counter counting them, and the 21st step sends it back to the centre |
| EyeBotCircle.EyeBotCircle.constructor | controllers/eyebot_circle/eyebot_circle.cpp:29-65 | initialisation ends with the reset: taking off to the point 3 m above the start, which is the circle centre |
| EyeBotCircle.EyeBotCircle.Reset | controllers/eyebot_circle/eyebot_circle.cpp:97-103 | the new state is ResetCircle of the old one |
| EyeBotCircle.EyeBotCircle.TakeOff | controllers/eyebot_circle/eyebot_circle.cpp:108-115 | the new state is the take-off step of the state machine |
| EyeBotCircle.EyeBotCircle.LeaveCircleCenter | controllers/eyebot_circle/eyebot_circle.cpp:120-126 | the new state is the leave-the-centre step |
| EyeBotCircle.EyeBotCircle.MoveAlongCircle | controllers/eyebot_circle/eyebot_circle.cpp:131-148 | the new state is the move-along-the-circle step |
| EyeBotCircle.EyeBotCircle.GoToCenter | controllers/eyebot_circle/eyebot_circle.cpp:153-161 | the new state is the go-to-the-centre step |
| EyeBotCircle.EyeBotCircle.Land | controllers/eyebot_circle/eyebot_circle.cpp:166-167 | landing changes nothing |
| EyeBotCircle.EyeBotCircle.ControlStep | controllers/eyebot_circle/eyebot_circle.cpp:70-92 | the new state is Step of the old one, so StepTransitions, StartNeverEntered and CircleLap hold of the controller |
| FootBotCircle.Payload | controllers/eyebot_circle/footbot_circle.cpp:48-52 | the 10-byte payload carries bytes 0 to 3 of the counter in positions 0 to 3, every entry is a byte, and positions 4 to 9 stay 0 |
| FootBotCircle.DecodePayload | controllers/eyebot_circle/footbot_circle.cpp:48-53 | decoding payload bytes 0 to 3 little-endian gives back the counter modulo 2^32 |
| FootBotCircle.SuccessivePayloads | controllers/eyebot_circle/footbot_circle.cpp:46-58 | the payloads of two successive steps decode to successive values modulo 2^32 |
| FootBotCircle.LowBytesAre | controllers/eyebot_circle/footbot_circle.cpp:49-52 | the k-th of the low bytes is the counter shifted right by 8k bits and masked with 0xff |
| FootBotCircle.DecodeLowBytes | controllers/eyebot_circle/footbot_circle.cpp:49-52 | decoding the n low bytes of a counter gives it modulo 256^n |
| FootBotCircle.FootBotCircle.Reset | controllers/eyebot_circle/footbot_circle.cpp:63-65 | the counter is 0 |
| FootBotCircle.FootBotCircle.ControlStep | controllers/eyebot_circle/footbot_circle.cpp:46-58 | the payload sent is that of the old counter, and the counter goes up by one, wrapping around 2^64 as the 64-bit counter of controllers/eyebot_circle/footbot_circle.h:65 does |
| FootBotSynchronization.Tick | controllers/footbot_synchronization/footbot_synchronization.cpp:54-71 | the LEDs turn red exactly when the advanced counter passes 100, and the counter then restarts from 0; otherwise the LEDs are black and the counter is the advanced one |
| FootBotSynchronization.TickInRange | controllers/footbot_synchronization/footbot_synchronization.cpp:54-68 | a counter in [0, 100] stays there, and never exceeds 110 before the flash check, so the 32-bit counter never wraps around |
| FootBotSynchronization.TickMonotone | controllers/footbot_synchronization/footbot_synchronization.cpp:54-68 | the counter never goes down except when the robot flashes and restarts from 0 |
| FootBotSynchronization.FlashBelowTenStalls | controllers/footbot_synchronization/footbot_synchronization.cpp:54-56 | a flash seen while the counter is below 10 leaves it where it is, as a tenth of it rounds down to 0 |
| FootBotSynchronization.FlashAdvances | controllers/footbot_synchronization/footbot_synchronization.cpp:54-59 | from 10 on, a flash advances the counter at least as much as a step without one |
| FootBotSynchronization.AloneFlashesAfter | controllers/footbot_synchronization/footbot_synchronization.cpp:54-71 | a robot that sees no flash, starting from counter c, stays dark for 100 - c steps and flashes at the next |
| FootBotSynchronization.FootBotSynchronization.constructor | controllers/footbot_synchronization/footbot_synchronization.cpp:7-32 | the counter is the draw in the count range and the camera is on |
| FootBotSynchronization.FootBotSynchronization.Reset | controllers/footbot_synchronization/footbot_synchronization.cpp:77-87 | the counter is drawn again and stays in range |
| FootBotSynchronization.FootBotSynchronization.ScanForFlash | controllers/footbot_synchronization/footbot_synchronization.cpp:43-46 | the scan reports a flash exactly when some blob is red |
| FootBotSynchronization.FootBotSynchronization.ControlStep | controllers/footbot_synchronization/footbot_synchronization.cpp:37-72 | the new counter and LED colour are Tick of the old counter and of whether some blob is red, and the counter stays in range |
| FootBotCircle.FootBotCircle.constructor | controllers/eyebot_circle/footbot_circle.cpp:11-12 | nothing has been sent yet; the counter is left unset until the first reset |
| FootBotGripping.ActionAt | controllers/footbot_gripping/footbot_gripping.cpp:49-69 | the schedule drives forward below 70, stops and grips at exactly 70, backs away from 71 to 119, releases from 120 to 169 and stops from 170 on; each action is chosen exactly on its range |
| FootBotGripping.Schedule | controllers/footbot_gripping/footbot_gripping.cpp:45-70 | from a reset counter, n steps leave the counter at n and the wheels and gripper where the schedule says: forward at 5 before 70, stopped at 70, backward at -5 through 169 (releasing keeps the backward speed), stopped from 170; the object is held from 70 to 119 and released from 120 |
| FootBotGripping.FootBotGripping.constructor | controllers/footbot_gripping/footbot_gripping.cpp:7-10 | the counter starts at 0 |
| FootBotGripping.FootBotGripping.Reset | controllers/footbot_gripping/footbot_gripping.cpp:75-78 | the counter is 0 again |
| FootBotGripping.FootBotGripping.ControlStep | controllers/footbot_gripping/footbot_gripping.cpp:45-70 | the new state is one step of the schedule from the old one, with the counter wrapping around 2^64 |
| EPuckObstacleAvoidance.Closest | controllers/epuck_obstacleavoidance/epuck_obstacleavoidance.cpp:57-70 | the chosen sensor is one of the front sensors 0, 1, 7 and 6, reads at least as much as each of them, and reads strictly more than every sensor compared before it, so ties go to the earlier one |
| EPuckObstacleAvoidance.WheelsTurnAway | controllers/epuck_obstacleavoidance/epuck_obstacleavoidance.cpp:71-86 | the robot drives straight exactly when no front sensor reads anything positive, turns right exactly when a left sensor (0 or 1) is the closest with a positive reading, and turns left exactly when a right sensor (7 or 6) is |
| EPuckObstacleAvoidance.EPuckObstacleAvoidance.constructor | controllers/epuck_obstacleavoidance/epuck_obstacleavoidance.cpp:9-49 | the wheel velocity is the configured one, 2.5 when the configuration has none |
| EPuckObstacleAvoidance.EPuckObstacleAvoidance.ControlStep | controllers/epuck_obstacleavoidance/epuck_obstacleavoidance.cpp:55-87 | the wheel speeds set are those of the closest front sensor's reading, as WheelsTurnAway describes |
| TrajectoryLoop.RestartAt | loop_functions/trajectory_loop_functions/trajectory_loop_functions.cpp:42-58 | after a restart robot i has a list, and it holds exactly its current position, when the ids are distinct |
| TrajectoryLoop.RestartOther | loop_functions/trajectory_loop_functions/trajectory_loop_functions.cpp:42-58 | a restart leaves the list of an id no robot has untouched |
| TrajectoryLoop.RestartKeys | loop_functions/trajectory_loop_functions/trajectory_loop_functions.cpp:42-58 | a restart adds exactly the robots' ids to the map |
| TrajectoryLoop.ExtendAt | loop_functions/trajectory_loop_functions/trajectory_loop_functions.cpp:64-79 | after a step robot i's list is its old list extended by the 5 cm rule, when the ids are distinct |
| TrajectoryLoop.ExtendOther | loop_functions/trajectory_loop_functions/trajectory_loop_functions.cpp:64-79 | a step leaves the list of an id no robot has untouched |
| TrajectoryLoop.RestartLists | loop_functions/trajectory_loop_functions/trajectory_loop_functions.cpp:42-58 | after a restart each foot-bot's list holds exactly its current position, the lists of ids that are not among the foot-bots are untouched, and the map's keys are the old ones plus the foot-bots' ids |
| TrajectoryLoop.ExtendAllLists | loop_functions/trajectory_loop_functions/trajectory_loop_functions.cpp:64-79 | after a step each foot-bot's list is its old list extended by the 5 cm rule, and every other list is untouched |
| TrajectoryLoop.ExtendedGrowsByAtMostOne | loop_functions/trajectory_loop_functions/trajectory_loop_functions.cpp:74-77 | a list keeps its waypoints and grows by one exactly when the position is more than 5 cm (squared distance above 0.0025) from the last waypoint, and the new waypoint is that position |
| TrajectoryLoop.ExtendAll | loop_functions/trajectory_loop_functions/trajectory_loop_functions.cpp:64-79 | every list stays non-empty, so the last waypoint is always defined, and no robot is added or removed |
| TrajectoryLoop.TrajectoryLoopFunctions.Init | loop_functions/trajectory_loop_functions/trajectory_loop_functions.cpp:19-37 | the waypoint map is the old one with each foot-bot's list set to its initial position |
| TrajectoryLoop.TrajectoryLoopFunctions.Reset | loop_functions/trajectory_loop_functions/trajectory_loop_functions.cpp:42-59 | the waypoint map is the old one with each foot-bot's list cleared and restarted at its current position |
| TrajectoryLoop.TrajectoryLoopFunctions.PostStep | loop_functions/trajectory_loop_functions/trajectory_loop_functions.cpp:64-79 | the waypoint map is ExtendAll of the old one: every list extended by the 5 cm rule, in visiting order |
| TrajectoryLoop.TrajectoryLoopFunctions.ExtendTrajectory | loop_functions/trajectory_loop_functions/trajectory_loop_functions.cpp:72-77 | the robot's list is its old list extended by the 5 cm rule and every other list is unchanged |
| CustomDistributions.DecimalRoundTrip | loop_functions/custom_distributions_loop_functions/custom_distributions_loop_functions.cpp:105 | the decimal digits written after "fb" read back as the running number |
| CustomDistributions.RobotIdInjective | loop_functions/custom_distributions_loop_functions/custom_distributions_loop_functions.cpp:105 | different running numbers give different robot ids |
| CustomDistributions.IdsFromDistinct | loop_functions/custom_distributions_loop_functions/custom_distributions_loop_functions.cpp:83 | robots numbered from a running count have pairwise distinct ids |
| CustomDistributions.AppendedTwice | loop_functions/custom_distributions_loop_functions/custom_distributions_loop_functions.cpp:66-83 | two runs of robots numbered contiguously, the second from where the first ends, form one contiguous run, so the running count keeps the ids of successive distributions apart |
| CustomDistributions.KnownPrefix | loop_functions/custom_distributions_loop_functions/custom_distributions_loop_functions.cpp:46-50 | the kinds seen so far are all known exactly when those before were and the last one is "line", "cluster" or "scalefree" |
| CustomDistributions.ArenaOfPrefix | loop_functions/custom_distributions_loop_functions/custom_distributions_loop_functions.cpp:143-147 | the arena a robot was placed in, holding the robots before it and itself at the origin, is the same however many robots follow it |
| CustomDistributions.TryPlacements | loop_functions/custom_distributions_loop_functions/custom_distributions_loop_functions.cpp:149-160 | at most MAX_PLACE_TRIALS + 1 = 21 positions are tried, the ones before the last all fail, and the outcome is that of the last |
| CustomDistributions.ClusterSquareArea | loop_functions/custom_distributions_loop_functions/custom_distributions_loop_functions.cpp:127-129 | the half-side is non-negative and the square of side twice the half-side, filled at the configured density, holds exactly the area of n foot-bot footprints, which is what Sqrt(FB_AREA * n / density) / 2 computes |
| CustomDistributions.ClusterPlaced | loop_functions/custom_distributions_loop_functions/custom_distributions_loop_functions.cpp:139-164 | a robot moved to the first of its candidates that is free, after robots all at their first fits, leaves every robot of the cluster at its first fit |
| CustomDistributions.ClusterFirstFitKept | loop_functions/custom_distributions_loop_functions/custom_distributions_loop_functions.cpp:139-164 | a robot at its first fit stays there, in the arena it was placed in, when another robot follows |
| CustomDistributions.ClusterStuck | loop_functions/custom_distributions_loop_functions/custom_distributions_loop_functions.cpp:149-163 | a robot none of whose 21 candidates is free stays at the origin after the robots at their first fits, and the error names it: "Can't place fb" followed by its running number |
| CustomDistributions.CandidateWithinReach | loop_functions/custom_distributions_loop_functions/custom_distributions_loop_functions.cpp:238-244 | for offset draws in [-h, h] the candidate lies between h and 2h from its pivot along each axis, at the pivot's height |
| CustomDistributions.CandidateAsWrittenOutOfReach | loop_functions/custom_distributions_loop_functions/custom_distributions_loop_functions.cpp:299-302 | as written, the centre is added on top of the pivot, so with a centre at (10, 0) the candidate lands 10.6 m from its pivot instead of within its range |
| CustomDistributions.EmptyScaleFreeReusesId | loop_functions/custom_distributions_loop_functions/custom_distributions_loop_functions.cpp:265-275 | as written, a scale-free distribution of 0 robots still adds robot "fb" + start, and the running count does not move, so the next distribution names its first robot the same |
| CustomDistributions.EntriesOf | loop_functions/custom_distributions_loop_functions/custom_distributions_loop_functions.cpp:196-203 | the pivot list after the layout's robots were stored has one entry per robot, holding that robot's position, in placement order |
| CustomDistributions.LayoutWithinReach | loop_functions/custom_distributions_loop_functions/custom_distributions_loop_functions.cpp:296-302 | for offset draws in [-h, h], every robot of a scale-free layout after the first is between h and 2h from its pivot along each axis |
| CustomDistributions.TryPivot | loop_functions/custom_distributions_loop_functions/custom_distributions_loop_functions.cpp:289-306 | the pivot is the stored entry whose range of connections covers the draw of this pivot trial (the only entry when there is one); at most 21 positions near it are tried; on success the last one is free and every earlier one is not; on failure none of the 21 near the covered entry is free |
| CustomDistributions.PivotTrials | loop_functions/custom_distributions_loop_functions/custom_distributions_loop_functions.cpp:287-307 | at most MAX_ROBOT_TRIALS + 1 = 21 pivot trials are made; on success the robot is at the first free candidate near the entry covered by the last trial's draw, and every earlier pivot trial failed for all its 21 candidates; on failure all 21 pivot trials failed |
| CustomDistributions.Connect | loop_functions/custom_distributions_loop_functions/custom_distributions_loop_functions.cpp:312-314 | the pivot list becomes the old one with the pivot's connections up by one and the robot appended with one connection, the stored total staying one above the sum of the connections |
| CustomDistributions.LayoutRobotAdded | loop_functions/custom_distributions_loop_functions/custom_distributions_loop_functions.cpp:297-314 | the robot just placed at the first fit near its pivot is recorded as such in the extended layout |
| CustomDistributions.LayoutRobotKept | loop_functions/custom_distributions_loop_functions/custom_distributions_loop_functions.cpp:277-315 | every earlier robot keeps its first fit, pivot and trials when another robot follows |
| CustomDistributions.LayoutRobotsFit | loop_functions/custom_distributions_loop_functions/custom_distributions_loop_functions.cpp:277-315 | after a robot is placed at its first fit near a pivot, every robot after the first is at its first fit near its own pivot |
| CustomDistributions.LayoutConnected | loop_functions/custom_distributions_loop_functions/custom_distributions_loop_functions.cpp:297-314 | a robot placed at its first fit near the pivot picked by the draw and connected to it extends the layout: ids stay contiguous, the pivot is recorded, every robot after the first is at its first fit, and the pivot list is the old one connected |
| CustomDistributions.Attach | loop_functions/custom_distributions_loop_functions/custom_distributions_loop_functions.cpp:277-315 | a robot that fits is appended at the first free candidate near the pivot its draw picks, with the pivot and trials recorded and the pivot list connected; a robot that fits nowhere is appended at the origin, the pivot list unchanged and every one of its 21 pivot trials failed |
| CustomDistributions.GrowLayout | loop_functions/custom_distributions_loop_functions/custom_distributions_loop_functions.cpp:277-315 | either all n robots form a scale-free layout after the first, each at its first fit near its pivot, or the layout stops at a robot left at the origin whose every pivot trial failed, with the robots before it laid out |
| CustomDistributions.LayoutStuckAt | loop_functions/custom_distributions_loop_functions/custom_distributions_loop_functions.cpp:307-310 | a robot whose pivot trials all failed ends the layout stuck: it is the last robot, at the origin, after a laid-out run of robots |
| CustomDistributions.StuckOf | loop_functions/custom_distributions_loop_functions/custom_distributions_loop_functions.cpp:307-310 | an arena holding a laid-out run followed by a robot at the origin whose pivot trials all failed is a stuck layout |
| CustomDistributions.ScaleFreePlaced | loop_functions/custom_distributions_loop_functions/custom_distributions_loop_functions.cpp:246-320 | a complete layout appended to the arena numbers its robots from the start and, for offset draws in [-h, h], keeps every robot after the first within reach of its pivot |
| CustomDistributions.AllDistributedSnoc | loop_functions/custom_distributions_loop_functions/custom_distributions_loop_functions.cpp:42-84 | placing one more distribution after the ones already placed extends their placement |
| CustomDistributions.DistributedNext | loop_functions/custom_distributions_loop_functions/custom_distributions_loop_functions.cpp:42-84 | distribution d placed after the first d extends their placement to the first d + 1 |
| CustomDistributions.CustomDistributionsLoopFunctions.constructor | loop_functions/custom_distributions_loop_functions/custom_distributions_loop_functions.cpp:22-23 | no robot is placed |
| CustomDistributions.CustomDistributionsLoopFunctions.Init | loop_functions/custom_distributions_loop_functions/custom_distributions_loop_functions.cpp:34-89 | an unknown kind is an error; on success every kind is known and the robots of all distributions are appended, numbered from 0 in order, and each distribution's robots are where its kind puts them (along the line, at first fits on the cluster's square, or as a scale-free layout from its first position) |
| CustomDistributions.CustomDistributionsLoopFunctions.PlaceNext | loop_functions/custom_distributions_loop_functions/custom_distributions_loop_functions.cpp:45-83 | one pass of the loop: an unknown kind is an error; otherwise the placement of the first d distributions is extended by distribution d, numbered from the running count |
| CustomDistributions.CustomDistributionsLoopFunctions.PlaceDistribution | loop_functions/custom_distributions_loop_functions/custom_distributions_loop_functions.cpp:61-81 | a distribution of a known kind that succeeds appends its robot count of robots, numbered from the running count, where its kind puts them |
| CustomDistributions.CustomDistributionsLoopFunctions.PlaceLine | loop_functions/custom_distributions_loop_functions/custom_distributions_loop_functions.cpp:94-117 | n robots are appended, numbered from the start, robot i at i metres from the centre along both axes |
| CustomDistributions.CustomDistributionsLoopFunctions.PlaceCluster | loop_functions/custom_distributions_loop_functions/custom_distributions_loop_functions.cpp:122-169 | on success n robots are appended, numbered from the start, each at the first of its 21 candidates that is free in the arena it was placed in, on the square of half-side Sqrt(FB_AREA * n / density) / 2 around the centre; on failure the robots before the failing one are at their first fits, the failing one stays at the origin, none of its 21 candidates was free, and the error names it |
| CustomDistributions.CustomDistributionsLoopFunctions.PlaceScaleFree | loop_functions/custom_distributions_loop_functions/custom_distributions_loop_functions.cpp:246-320 | zero robots place nothing; otherwise the first robot goes to the centre, or stays at the origin when the centre is taken; on success n robots are appended, numbered from the start, each later one at the first free candidate near the pivot its draw picks and, for offset draws in [-h, h], within reach of that pivot; on failure the robot left at the origin had every pivot trial fail, and the error names it |
| ScaleFree.ConnsMonotone | loop_functions/custom_distributions_loop_functions/custom_distributions_loop_functions.cpp:205-222 | the running sums of connections only grow along the list |
| ScaleFree.CoversUnique | loop_functions/custom_distributions_loop_functions/custom_distributions_loop_functions.cpp:205-222 | each draw falls on at most one entry, so the pivot is a function of the draw |
| ScaleFree.ConnectedConns | loop_functions/custom_distributions_loop_functions/custom_distributions_loop_functions.cpp:196-203 | connecting a robot to a pivot adds two connections in all, as the two added to the total |
| ScaleFree.BumpConns | loop_functions/custom_distributions_loop_functions/custom_distributions_loop_functions.cpp:313 | one more connection for the pivot adds one to the sum |
| ScaleFree.SFData.constructor | loop_functions/custom_distributions_loop_functions/custom_distributions_loop_functions.cpp:185-187 | no entry is stored and the total is 0 |
| ScaleFree.SFData.Insert | loop_functions/custom_distributions_loop_functions/custom_distributions_loop_functions.cpp:196-203 | the robot is stored last with one connection and the total grows by two |
| ScaleFree.SFData.IncrementConns | loop_functions/custom_distributions_loop_functions/custom_distributions_loop_functions.cpp:313 | the pivot, and only it, gains a connection |
| ScaleFree.SFData.Pick | loop_functions/custom_distributions_loop_functions/custom_distributions_loop_functions.cpp:205-228 | an empty list is an error; a single entry is returned without a draw; with several entries the entry returned is the one whose range of connections covers the draw, the last one taking every draw beyond |
| ScaleFree.GenerateCoordinate | loop_functions/custom_distributions_loop_functions/custom_distributions_loop_functions.cpp:238-244 | the coordinate is at least h away from 0, at most 2h for a draw in [-h, h], and positive draws give coordinates above h |
| ManualControl.Slot | loop_functions/manualcontrol_loop_functions/manualcontrol_qtuser_functions.cpp:31-51 | each direction key drives its own one of the four flags |
| ManualControl.AxisValue | loop_functions/manualcontrol_loop_functions/manualcontrol_qtuser_functions.cpp:135-138 | a component of the control vector is 0 when both or neither of its keys are held, and +10 or -10 when only one is |
| ManualControl.DirectionComponents | loop_functions/manualcontrol_loop_functions/manualcontrol_qtuser_functions.cpp:129-143 | the control vector is +10, 0 or -10 along x (I forward, K backward) and along y (J left, L right) according to the keys held |
| ManualControl.ManualController.constructor | controllers/footbot_manualcontrol/footbot_manualcontrol.h:142-146 | the robot starts unselected with a zero control vector |
| ManualControl.ManualController.Select | controllers/footbot_manualcontrol/footbot_manualcontrol.h:108-112 | the robot is selected |
| ManualControl.ManualController.Deselect | controllers/footbot_manualcontrol/footbot_manualcontrol.h:114-118 | the robot is not selected |
| ManualControl.ManualController.SetControlVector | controllers/footbot_manualcontrol/footbot_manualcontrol.h:120-123 | the control vector is the one given |
| ManualControl.ManualControlUserFunctions.constructor | loop_functions/manualcontrol_loop_functions/manualcontrol_qtuser_functions.cpp:13-20 | no controller is selected and no key is pressed |
| ManualControl.ManualControlUserFunctions.SetDirectionFromKeyEvent | loop_functions/manualcontrol_loop_functions/manualcontrol_qtuser_functions.cpp:129-146 | the selected controller's control vector becomes the direction of the pressed flags |
| ManualControl.ManualControlUserFunctions.KeyPressed | loop_functions/manualcontrol_loop_functions/manualcontrol_qtuser_functions.cpp:25-57 | with no robot selected, or for another key, the event goes to the widget and nothing changes; otherwise only the key's flag becomes 1 and the control vector follows the flags; the controller stays selected as it was |
| ManualControl.ManualControlUserFunctions.KeyReleased | loop_functions/manualcontrol_loop_functions/manualcontrol_qtuser_functions.cpp:62-94 | with no robot selected, or for another key, the event goes to the widget and nothing changes; otherwise only the key's flag becomes 0 and the control vector follows the flags; the controller stays selected as it was |
| ManualControl.ManualControlUserFunctions.EntitySelected | loop_functions/manualcontrol_loop_functions/manualcontrol_qtuser_functions.cpp:99-112 | selecting a foot-bot selects its controller and clears all four flags; selecting anything else changes nothing |
| ManualControl.ManualControlUserFunctions.EntityDeselected | loop_functions/manualcontrol_loop_functions/manualcontrol_qtuser_functions.cpp:117-124 | the controller held, if any, is deselected and forgotten; the flags stay as they were |
| Mpga.SortedMeansScoreOrder | loop_functions/mpga_loop_functions/mpga.cpp:23-31 | a population sorted with the comparator chosen for maximising has non-increasing scores, and for minimising non-decreasing ones, in both directions |
| Mpga.HeadStaysFirst | loop_functions/mpga_loop_functions/mpga.cpp:164-166 | when an individual goes after the head of a sorted population, nothing placed in the rest goes before that head |
| Mpga.InsertSorted | loop_functions/mpga_loop_functions/mpga.cpp:164-166 | inserting into a sorted population keeps it sorted and adds exactly that individual |
| Mpga.SortPopulation | loop_functions/mpga_loop_functions/mpga.cpp:163-166 | the population after sorting is sorted by the comparator and a permutation of the one before |
| Mpga.PermutationWellFormed | loop_functions/mpga_loop_functions/mpga.cpp:163-166 | sorting keeps every genome at the genome size |
| Mpga.PermutationInRange | loop_functions/mpga_loop_functions/mpga.cpp:163-166 | sorting keeps every genome in the allele range |
| Mpga.SlotInRegion | loop_functions/mpga_loop_functions/mpga.cpp:337 | the genome and the score of slot i < popSize lie inside the region of popSize * (genomeSize + 1) reals |
| Mpga.SlotsDisjoint | loop_functions/mpga_loop_functions/mpga.cpp:366-394 | a slot ends before any later one begins, so slots never overlap |
| Mpga.GenomeRoundTrip | loop_functions/mpga_loop_functions/mpga.cpp:366-379 | writing a genome to slot i and reading slot i gives it back, and every other genome and every score are unchanged |
| Mpga.ScoreRoundTrip | loop_functions/mpga_loop_functions/mpga.cpp:384-395 | writing a score to slot i and reading it gives it back, and every other score and every genome are unchanged |
| Mpga.SharedMem.constructor | loop_functions/mpga_loop_functions/mpga.cpp:319-351 | the region holds popSize * (genomeSize + 1) reals |
| Mpga.SharedMem.GetGenome | loop_functions/mpga_loop_functions/mpga.cpp:366-368 | the genome read has genomeSize genes |
| Mpga.SharedMem.Scores | loop_functions/mpga_loop_functions/mpga.cpp:384-386 | the scores are those stored in the slots, in slot order |
| Mpga.SharedMem.SetGenome | loop_functions/mpga_loop_functions/mpga.cpp:374-379 | the region is the old one with slot i's genome written |
| Mpga.SharedMem.SetScore | loop_functions/mpga_loop_functions/mpga.cpp:392-395 | the region is the old one with slot i's score written |
| Mpga.MutationInRange | loop_functions/mpga_loop_functions/mpga.cpp:305-314 | mutating a genome in the allele range with draws in the range keeps it in the range |
| Mpga.MutationWithoutFiring | loop_functions/mpga_loop_functions/mpga.cpp:309-311 | when no coin flip fires the genome is unchanged |
| Mpga.MutateGenes | loop_functions/mpga_loop_functions/mpga.cpp:309-312 | walking the genes and replacing those whose coin flip fires gives MutateGenome |
| Mpga.ChildInRange | loop_functions/mpga_loop_functions/mpga.cpp:276-314 | a child cut from two parents in the allele range and mutated with draws in the range is in the range, as crossover copies only parental genes |
| Mpga.ChildrenWellFormed | loop_functions/mpga_loop_functions/mpga.cpp:276-300 | after crossover every individual, elites and children, has genomeSize genes |
| Mpga.NextPopulationInRange | loop_functions/mpga_loop_functions/mpga.cpp:172-177 | when the two parents lie in the allele range and the mutation values are drawn from it, the whole next population lies in it |
| Mpga.RunTrials | loop_functions/mpga_loop_functions/mpga.cpp:243-255 | trial t's score is stored at index t, and the loop functions are left at the last trial |
| Mpga.AwaitWorkers | loop_functions/mpga_loop_functions/mpga.cpp:142-158 | the wait succeeds exactly when the first popSize reports all say stopped; otherwise it stops at the first other report |
| Mpga.GA.constructor | loop_functions/mpga_loop_functions/mpga.cpp:36-89 | the generation is 0, the comparator sorts high to low when maximising and low to high otherwise, the settings are stored, and individual p has the p-th drawn genome and score -1 |
| Mpga.GA.Cleanup | loop_functions/mpga_loop_functions/mpga.cpp:126-128 | the shared memory is released |
| Mpga.GA.RunWorker | loop_functions/mpga_loop_functions/mpga.cpp:236-259 | worker i stores in its slot the aggregate of its trial scores for the genome it reads from its slot, and changes nothing else |
| Mpga.GA.Dispatch | loop_functions/mpga_loop_functions/mpga.cpp:135-140 | every slot ends up holding the score its worker reports for the genome of its individual |
| Mpga.GA.CopyScores | loop_functions/mpga_loop_functions/mpga.cpp:160-162 | every individual receives the score stored in its slot |
| Mpga.GA.Evaluate | loop_functions/mpga_loop_functions/mpga.cpp:133-167 | when every worker reports stopped the population is rescored with its workers' scores and sorted with the comparator; when one does not the shared memory is released and the master exits with status 1, leaving the population alone |
| Mpga.GA.Selection | loop_functions/mpga_loop_functions/mpga.cpp:265-271 | only the two best individuals remain, in order |
| Mpga.GA.Crossover | loop_functions/mpga_loop_functions/mpga.cpp:276-300 | one child per non-elite place is appended after the parents, child k the offspring of the two best individuals cut at the k-th draw |
| Mpga.GA.Mutation | loop_functions/mpga_loop_functions/mpga.cpp:305-314 | the two elites are untouched and every other individual's genome is mutated with its row of coin flips and draws |
| Mpga.GA.NextGen | loop_functions/mpga_loop_functions/mpga.cpp:172-177 | the generation counter goes up by one, the two best individuals survive unchanged, child k is the mutated offspring of the two cut at the k-th draw, and every genome stays in the allele range (part of Valid) when the mutation values are drawn from it as Uniform(m_cAlleleRange) does at line 311 |
| MpgaLoop.MpgaLoopFunctions.constructor | loop_functions/mpga_loop_functions/mpga_loop_functions.cpp:6-7 | a new object is at trial 0 |
| MpgaLoop.MpgaLoopFunctions.SetTrial | loop_functions/mpga_loop_functions/mpga_loop_functions.cpp:12-21 | the trial read back is the one set |
| MpgaMain.ScoreAggregator | embedding/mpga/main.cpp:34-40 | the aggregated score is one of the trial scores and at least every one of them |
| MpgaMain.FlushIndividual | embedding/mpga/main.cpp:14-27 | the file holds the gene count 98 followed by the 98 genes in order |
| MpgaMain.FlushSchedule | embedding/mpga/main.cpp:70 | generation n + 1 adds a flush exactly when it is a multiple of 5 |
| MpgaMain.Launch | embedding/mpga/main.cpp:43-54 | the GA runs 5 individuals of 98 genes, mutation probability 0.05 and 100 generations, minimising, and the first evaluation succeeds exactly when all workers report stopped, leaving the population sorted best (lowest score) first |
| MpgaMain.NextRound | embedding/mpga/main.cpp:62-64 | a round advances the generation by one, and its evaluation succeeds exactly when all workers report stopped, leaving the population sorted best first |
| MpgaMain.FlushIfDue | embedding/mpga/main.cpp:70-76 | earlier flushes are kept; at a multiple of 5 one flush is appended for that generation, holding the gene count and then every gene of population[0], the best individual; otherwise nothing is appended |
| MpgaMain.RunExperiment | embedding/mpga/main.cpp:42-81 | the program exits with 0 exactly when every evaluation succeeds, after 100 new generations and 101 evaluations with 20 flushes; otherwise it exits with 1 at the first failed evaluation; every evaluated population is sorted best first, and flush k holds the gene count and the genes of the best individual of generation 5(k + 1) |
| NeuralNetwork.Sigmoid | controllers/footbot_nn/nn/ctrnn_multilayer.cpp:234 | the logistic sigmoid lies strictly between 0 and 1 |
| NeuralNetwork.DotPrefix | controllers/footbot_nn/nn/perceptron.cpp:115-120 | a weighted sum reads only its own n weights and n values |
| NeuralNetwork.RowMajor | controllers/footbot_nn/nn/perceptron.cpp:113-117 | entry (i, j) of a rows-by-cols block lies inside the block, and its row and column are recovered by division and remainder |
| NeuralNetwork.RowMajorCovers | controllers/footbot_nn/nn/perceptron.cpp:113-117 | every index of a block is the position of some entry, its row being below the row count |
| NeuralNetwork.CopyValues | controllers/footbot_nn/nn/neural_network.h:39-45 | slots start to start + n - 1 hold the n values in order and every other slot keeps its value |
| NeuralNetwork.CopyBytesAsWritten | controllers/footbot_nn/nn/neural_network.h:39-45 | as written, the byte copy puts n / 8 whole values from slot start on, a mixed value in the next slot when n is not a multiple of 8, and keeps every other slot |
| NeuralNetwork.BytesCopyMissesLastValue | controllers/footbot_nn/nn/neural_network.h:39-45 | as written, the copy moves n bytes rather than n values, so of two or more requested inputs the last keeps its old value, while the intended copy sets it |
| NeuralNetwork.SetTwoInputsAsWritten | controllers/footbot_nn/nn/neural_network.h:39-45 | as written, setting two inputs from [1, 2] over [0, 0] leaves the second at 0, while the intended copy gives [1, 2] |
| NeuralNetwork.Network.constructor | controllers/footbot_nn/nn/neural_network.cpp:7-11 | both counts are 0 and neither buffer exists |
| NeuralNetwork.Network.Init | controllers/footbot_nn/nn/neural_network.cpp:24-49 | the counts are the configured ones and each buffer is fresh, of its count's size, and zero-filled |
| NeuralNetwork.Network.Reset | controllers/footbot_nn/nn/neural_network.cpp:55-60 | the first numberOfInputs inputs and numberOfOutputs outputs are 0, and later slots keep their values |
| NeuralNetwork.Network.Destroy | controllers/footbot_nn/nn/neural_network.cpp:66-74 | both buffers are dropped and both counts are 0 |
| NeuralNetwork.Network.SetNumberOfInputs | controllers/footbot_nn/nn/neural_network.h:27-29 | the input count is the one given |
| NeuralNetwork.Network.SetNumberOfOutputs | controllers/footbot_nn/nn/neural_network.h:50-52 | the output count is the one given |
| NeuralNetwork.Network.SetInput | controllers/footbot_nn/nn/neural_network.h:34-37 | input slot i holds the value and no other slot changes |
| NeuralNetwork.Network.SetInputRange | controllers/footbot_nn/nn/neural_network.h:39-45 | the n inputs from the start slot on hold the n values in order and every other input is unchanged |
| Perceptron.WeightLayout | controllers/footbot_nn/nn/perceptron.cpp:113-117 | the bias of output i and its weight from input j lie inside the (I + 1) * O weights, in row i, the bias at column 0 and the weight at column j + 1 |
| Perceptron.WeightOwner | controllers/footbot_nn/nn/perceptron.cpp:110-126 | every weight index belongs to exactly one output's row, as its bias or as one of its input weights |
| Perceptron.NetInputOf | controllers/footbot_nn/nn/perceptron.cpp:113-121 | the sum accumulated for output i is its bias plus its weighted inputs, in input order |
| Perceptron.Perceptron.constructor | controllers/footbot_nn/nn/perceptron.cpp:9-11 | no weights and a count of 0; the base network starts empty |
| Perceptron.Perceptron.LoadNetworkParameters | controllers/footbot_nn/nn/perceptron.cpp:87-105 | the count (I + 1) * O is stored; a different parameter count fails and writes no weight; otherwise the weights are the parameters in order, in the existing buffer when there is one, and later slots keep their values |
| Perceptron.Perceptron.SetOnlineParameters | controllers/footbot_nn/nn/neural_network.cpp:80-83 | the same outcome as loading the parameters: the count is stored, a mismatch fails with the weights untouched, an existing buffer is reused with the slots past the count kept, and on success the first count weights are the parameters |
| Perceptron.Perceptron.ComputeOutputs | controllers/footbot_nn/nn/perceptron.cpp:110-126 | output i is the sigmoid of its bias plus its weighted inputs, strictly between 0 and 1, and outputs past the count keep their values |
| Perceptron.Perceptron.Destroy | controllers/footbot_nn/nn/perceptron.cpp:40-44 | the weights are dropped and their count is 0 |
| CtrnnMultilayer.AffineInRange | controllers/footbot_nn/nn/ctrnn_multilayer.cpp:181 | a gene of 0 maps to the lower bound, 1 to the upper, and every gene in [0, 1] into the range |
| CtrnnMultilayer.CursorEndsAtCount | controllers/footbot_nn/nn/ctrnn_multilayer.cpp:162-207 | the six blocks together consume exactly the expected parameter count, so the loading cursor never reads past the genome |
| CtrnnMultilayer.Activations | controllers/footbot_nn/nn/ctrnn_multilayer.cpp:234 | one activation per hidden node, each strictly between 0 and 1 |
| CtrnnMultilayer.OutputValue | controllers/footbot_nn/nn/ctrnn_multilayer.cpp:246-260 | every output value lies strictly between 0 and 1 |
| CtrnnMultilayer.NewBuffers | controllers/footbot_nn/nn/ctrnn_multilayer.cpp:179-210 | the eight buffers are fresh, of the given sizes, and pairwise distinct |
| CtrnnMultilayer.FillAffine | controllers/footbot_nn/nn/ctrnn_multilayer.cpp:180-182 | the first n entries are the genes from the offset on mapped onto the range, and later entries are unchanged |
| CtrnnMultilayer.FillTaus | controllers/footbot_nn/nn/ctrnn_multilayer.cpp:195-197 | the first n entries are 10 to the power of the mapped genes from the offset on, and later entries are unchanged |
| CtrnnMultilayer.RowFits | controllers/footbot_nn/nn/ctrnn_multilayer.cpp:229 | row i of a block with rows of cols entries ends inside the block |
| CtrnnMultilayer.WeightedSum | controllers/footbot_nn/nn/ctrnn_multilayer.cpp:227-230 | the sum accumulated is the weighted sum of the first n values |
| CtrnnMultilayer.WeightedActivations | controllers/footbot_nn/nn/ctrnn_multilayer.cpp:233-236 | the sum accumulated is the weighted sum of the hidden activations |
| CtrnnMultilayer.UpdateDeltas | controllers/footbot_nn/nn/ctrnn_multilayer.cpp:224-237 | the delta of every hidden node is minus its state plus its weighted inputs plus its weighted hidden activations, all from the states before the step; deltas past the H-th are unchanged |
| CtrnnMultilayer.Integrate | controllers/footbot_nn/nn/ctrnn_multilayer.cpp:241-243 | every hidden state moves by delta * step / tau and later slots are unchanged |
| CtrnnMultilayer.UpdateOutputs | controllers/footbot_nn/nn/ctrnn_multilayer.cpp:246-260 | every output is the sigmoid of its weighted activations plus its bias; outputs past the O-th are unchanged |
| CtrnnMultilayer.CtrnnMultilayer.constructor | controllers/footbot_nn/nn/ctrnn_multilayer.cpp:10-24 | no hidden nodes and no buffers, a step of 0.1, and bounds [-4, 4] for weights and biases and [-1, 3] for the time-constant exponents |
| CtrnnMultilayer.CtrnnMultilayer.Init | controllers/footbot_nn/nn/ctrnn_multilayer.cpp:43-69 | the sizes, step and bounds are the configured ones and the base network holds fresh zeroed buffers |
| CtrnnMultilayer.CtrnnMultilayer.LoadNetworkParameters | controllers/footbot_nn/nn/ctrnn_multilayer.cpp:160-215 | a count other than H(I + 1) + H^2 + O(H + 1) + H fails before anything is written; otherwise each block holds its genes mapped onto its range, time constants are 10 to the mapped gene, existing buffers are reused and keep every entry past their block's size, and every hidden state and delta is 0 |
| CtrnnMultilayer.CtrnnMultilayer.SetOnlineParameters | controllers/footbot_nn/nn/neural_network.cpp:80-83 | the same outcome as loading the parameters: fails exactly on a count mismatch, with buffers and contents untouched; the hidden-node count, time step and three ranges stay; existing buffers are reused and keep every entry past their block's size; on success the network is loaded from the genome |
| CtrnnMultilayer.CtrnnMultilayer.Allocate | controllers/footbot_nn/nn/ctrnn_multilayer.cpp:179-210 | every block gets a fresh buffer of its size |
| CtrnnMultilayer.CtrnnMultilayer.FillBlocks | controllers/footbot_nn/nn/ctrnn_multilayer.cpp:177-214 | the six blocks hold the genome from their cursor positions on, the states and deltas are 0, and every buffer keeps its entries past its block's size |
| CtrnnMultilayer.CtrnnMultilayer.LoadedWithinBounds | controllers/footbot_nn/nn/ctrnn_multilayer.cpp:179-207 | weights and biases loaded from genes in [0, 1] lie within their ranges, and every time constant is positive |
| CtrnnMultilayer.CtrnnMultilayer.ComputeOutputs | controllers/footbot_nn/nn/ctrnn_multilayer.cpp:222-261 | the deltas come from the states before the step, each state then moves by delta * step / tau, and each output is the sigmoid of the new activations it is wired to, strictly between 0 and 1; states and deltas past the H-th and outputs past the O-th are unchanged |
| CtrnnMultilayer.CtrnnMultilayer.ZeroStates | controllers/footbot_nn/nn/ctrnn_multilayer.cpp:88-91 | every hidden state and delta is 0 and later slots are unchanged |
| CtrnnMultilayer.CtrnnMultilayer.Reset | controllers/footbot_nn/nn/ctrnn_multilayer.cpp:87-92 | every hidden state and delta is 0, and slots past the H-th are unchanged |
| CtrnnMultilayer.CtrnnMultilayer.Destroy | controllers/footbot_nn/nn/ctrnn_multilayer.cpp:97-123 | the hidden-node count is 0 and every buffer of its own is dropped, while the base network's buffers stay |

## Left out

- File and stream I/O are not modelled. This covers the perceptron's file loader (controllers/footbot_nn/nn/perceptron.cpp:49-82), the CTRNN's loader (controllers/footbot_nn/nn/ctrnn_multilayer.cpp:129-154, which never opens its stream), the GA's output file and FlushIndividual's stream. FlushIndividual is modelled as the sequence of tokens it writes.
- XML configuration parsing is not modelled: configured values are constructor parameters. The Qt drawing and widget forwarding of the manual-control user functions are left out too.
- Floating point is modelled as `real`. There is no rounding, no infinity and no NaN. CtrnnMultilayer.CtrnnMultilayer.ComputeOutputs therefore requires positive time constants, where the source would divide by zero and carry on with infinities.
- Random number generators, sensor readings, `MoveEntity` results and angles are parameters. Where a contract depends on a draw's range, the member requires the range the source's generator gives: the cluster draws lie on the square of half-side `HalfSide` (custom_distributions_loop_functions.cpp:129, 154-155), the scale-free offset draws lie in [-h, h] for h half the range (custom_distributions_loop_functions.cpp:240), and the GA's mutation values lie in the allele range (mpga.cpp:311). The GA's cut points are required in [1, genomeSize - 1], which admits the upper end that ARGoS's half-open integer range never draws. The scale-free pivot draw is any natural number rather than one below the total connection count (custom_distributions_loop_functions.cpp:208); a draw at or beyond the sum of the connections picks the last entry, as the source's `Data.back()` branch does, so the wider domain changes no outcome the source can produce.
- Trigonometry, square root, `pow` and `exp` are oracle parameters, so no numeric accuracy is modelled. The square root used for the cluster's square is required to be one (`IsRootOf`: non-negative, squaring to its argument).
- CustomDistributions.CustomDistributionsLoopFunctions.PlaceCluster: a positive density is required. With a zero or negative density the source divides by zero or takes the root of a negative number and scatters robots over an infinite or NaN square; those floating-point outcomes are not modelled.
- Decimal constants (the foot-bot radius 0.085036758 m behind FB_AREA, pi, the thresholds) are the exact reals they denote, not their nearest doubles.
- FootBotSynchronization.FootBotSynchronization.Reset: the counter draw may be anything in `[0, 100]`, a superset of the source's half-open `[0, 100)`, so 100 is admitted where the source never draws it; the same holds for the class constructor.
- The 32-bit unsigned wrap-around of the neural-network counts and of their products is not modelled: counts are `nat`. The 32-bit wrap of the foraging energy drop is modelled.
- ForagingLoop.Visit: the collected-food count is a `UInt32` in the source (foraging_loop_functions.h:35, incremented at foraging_loop_functions.cpp:143) and would wrap to 0 after 2^32 deliveries; the model counts it as a `nat`, and the energy, a 64-bit signed integer there, as an `int`. The same holds for VisitAll, VisitAllLedger and ForagingLoop.ForagingLoopFunctions.PreStep.
- CtrnnMultilayer.CtrnnMultilayer.Init: the source's implicit "all buffers allocated or none" invariant is part of `Separate()`, which the constructor establishes and Init, Allocate, LoadNetworkParameters and Destroy preserve; it is not bundled into one class invariant, so each method states the buffers it touches and their sizes. The output time constants, which the source declares but never reads, are not modelled.
- CtrnnMultilayer.CtrnnMultilayer.LoadNetworkParameters: requires `Fits()`, every existing buffer being long enough for the current counts. The source allocates a block only when its pointer is null (ctrnn_multilayer.cpp:179-205) and writes the new counts' worth into a buffer kept from an earlier load, overflowing it when Init has since raised a count; that out-of-bounds write is not modelled. The same holds for SetOnlineParameters.
- Perceptron.Perceptron.LoadNetworkParameters: requires that an existing weight buffer holds (I + 1) * O weights. The source allocates only when the pointer is null (perceptron.cpp:101) and writes past a buffer left by a load with smaller counts; that out-of-bounds write is not modelled. The same holds for SetOnlineParameters.
- NeuralNetwork.Network.Reset: requires each buffer to exist and hold its count of values whenever that count is positive. The source's `memset` (neural_network.cpp:57-59) writes through a null or too short buffer otherwise; that case is not modelled.
- WheelTurning.Steer: requires a positive hard-turn threshold and a non-negative maximum speed (`ValidParams`). The source reads both from the configuration without checking them, and a zero threshold divides by zero in the soft-turn speed; the same holds for SoftSpeeds and the controllers' SetWheelSpeedsFromVector. The same requirement, as the class predicate `Valid()`, is on FootBotForaging.FootBotForaging's constructor, SetWheelSpeedsFromVector, Explore, ReturnToNest and ControlStep, and on FootBotFlocking.FootBotFlocking's constructor, SetWheelSpeedsFromVector and ControlStep. The foot-bot flocking's VectorToLight and FlockingVector, and every eye-bot flocking member, accept any maximum.
- Geometry.ClampLength2: a negative limit is modelled, as the eye-bot's unchecked `max_interaction` allows. A non-zero vector is then rescaled to the limit's absolute value against its direction, as the source's normalise-and-multiply does. With a negative limit the source also normalises a zero mean vector, dividing zero by zero and giving NaN; the model keeps the zero vector. The same holds for Interaction.MeanInteraction and EyeBotFlocking.EyeBotFlocking.FlockDirection, Flock and ControlStep.
- Inheritance is replaced by composition: Perceptron and CtrnnMultilayer hold their base Network in the `net` field.
- Const getters are functions without an ensures clause of their own. What they return is stated by the contracts of the members that use them.
- ManualControl.ManualControlUserFunctions.EntitySelected: the model assumes the selected foot-bot runs the manual-control controller. The source's `dynamic_cast` can yield a null pointer, and that case is not modelled.
- Processes, `fork`, `kill`, `waitpid` and signals are not modelled. The coordinator's wait loop is modelled over the sequence of reports it receives. Creating, mapping and unlinking the named shared-memory object are left out, and so is the destructor killing the worker processes.
- Logging (`LOG`, `LOGERR`, `RLOG`) is not modelled. Neither is the nesting of exceptions: a thrown error is a `Fail` carrying the innermost message, without the outer context the callers add with `THROW_ARGOSEXCEPTION_NESTED` (for instance "Error initializing the loop functions" and "While placing robots in a cluster" around "Can't place fb3"). Parameter-count mismatches in Perceptron and CtrnnMultilayer fail with the fixed text "Number of parameter mismatch", without the passed and expected counts the source's message also gives.
- Mpga.SortPopulation: it is a deterministic insertion sort, so individuals with equal scores keep their relative order. The source's `std::sort` is not stable and may order them differently; what GA.Evaluate promises beyond a sorted permutation (that exact order) is a property of the model only, and SortedMeansScoreOrder and the permutation hold for any sort.
- Mpga.GA.NextGen: requires at least two genes and at least two individuals; Mpga.GA.Crossover likewise requires the two parents and cut points in [1, genomeSize - 1]. The source reads `m_tPopulation[1]` (mpga.cpp:281) and builds `CRange<UInt32>(1, m_unGenomeSize-1)` (mpga.cpp:286), both undefined for smaller sizes; that behaviour is not modelled.
- Mpga.GA.Crossover: the child's score is uninitialised in the source. The model stores -1, but its contract says nothing about that score.
- Perceptron.Perceptron.ComputeOutputs: the source accumulates the weighted sum in the output slot itself; the model uses a local sum. The value stored is the same.
- Perceptron.Perceptron.Destroy: freeing memory is modelled as setting the pointer to null and the count to 0. Use after free is not modelled. The same holds for the Destroy members of NeuralNetwork.Network and CtrnnMultilayer.CtrnnMultilayer.
- Concurrency between the coordinator and the workers is modelled only through the order the protocol imposes. A worker's slot is written before it resumes and is read after it stops.

## Findings

| source | as written | input that shows it | evidently intended | confidence | as-written member | corrected member |
|---|---|---|---|---|---|---|
| loop_functions/custom_distributions_loop_functions/custom_distributions_loop_functions.cpp:299-302 | the new robot's position adds the distribution's centre on top of the pivot robot's absolute position | centre (10, 0), pivot at (10, 0, 0), offset draws (0.1, 0.1), reach 0.5: the candidate is (20.6, 0.6, 0), 10.6 m from the pivot along x | the candidate lies within the maximum distance of the pivot robot | not executed | CustomDistributions.CandidateAsWrittenOutOfReach | CustomDistributions.CandidateWithinReach |
| loop_functions/custom_distributions_loop_functions/custom_distributions_loop_functions.cpp:265-275 | a scale-free distribution with 0 robots still places robot `fb<start>`, but the running id counter does not advance | a scale-free distribution of 0 robots followed by a line of 1 robot: both robots are named `fb0` | a distribution of 0 robots places nothing, so every robot id is distinct | not executed | CustomDistributions.EmptyScaleFreeReusesId | CustomDistributions.CustomDistributionsLoopFunctions.PlaceScaleFree |
| controllers/footbot_nn/nn/neural_network.h:39-45 | SetInputRange copies `un_num_values` BYTES with `memcpy`, not that many values | two inputs set from [1.0, 2.0] over [0.0, 0.0]: the second input stays 0.0 | the `n` inputs from the start slot take the `n` given values | not executed | NeuralNetwork.CopyBytesAsWritten, NeuralNetwork.SetTwoInputsAsWritten | NeuralNetwork.Network.SetInputRange |

The first finding: the scale-free placement computes a candidate position by
adding a random offset to the pivot robot's position. It then adds the
distribution's centre on top of that, although the pivot's position is
already absolute. For any distribution whose centre is not the origin, every
candidate is shifted away from its pivot by the centre. The model places
candidates at the pivot plus the offset (`ScaleFreeCandidate`), and proves
that, for offset draws in [-h, h] as the source's generator gives them, the
result lies between h and 2h from its pivot along each axis
(`CandidateWithinReach`); PlaceScaleFree requires those draws and states
that every robot it places after the first is within that reach.

The second finding: a scale-free distribution first places one robot
unconditionally, and advances the id counter only by the requested count. A
count of 0 therefore leaves a robot whose id the next distribution reuses.
The model places nothing for a count of 0. `IdsFromDistinct` proves that the
ids handed out are distinct.

The third finding: `::memcpy(m_pfInputs + un_input_start, pf_input_values,
un_num_values)` copies bytes. With eight-byte reals, asking for two values
copies a quarter of one. The model's `SetInputRange` copies whole values.
`CopyBytesAsWritten` and `BytesCopyMissesLastValue` describe what the code
does.
