# Tower Madness, modelled in Dafny

Tower Madness is an arcade game about an elevator in a San Francisco tech
tower. The tower has floors -1 to 17 with no 13th floor. Neutral NPCs, good
robots, evil robots and named characters appear on the floors and wait in
bounded queues. The player drives the car up and down one floor at a time,
opens and closes the doors, and earns points for each NPC delivered to its
destination. Chaos and harmony levels shape which NPCs appear and how
often. A flood, a power outage, a fire alarm and a hackathon can interrupt
play. After a game, the player enters three initials for a leaderboard. A
small mode machine (menu, playing, paused, game over) drives it all.

This project models that core:

- **Elevators**: the car, its movement towards a target floor, its doors,
  its passenger list of at most six, and boarding and leaving.
- **Floors**: the floor table, a floor's queue of at most eight, and
  waiting NPCs losing patience.
- **Npcs**: NPCs, good robots and evil robots. Covers destinations, the
  per-tick update, interactions, love, rage and fights.
- **SpecialNpcs**: the named characters and the factory that places them.
- **SceneRules**: the pure rules of the elevator scene. Covers the up and
  down requests that skip the 13th floor, the spawn odds, scoring,
  penalties, decay, and the commands keys issue.
- **Scene** and **Arrivals**: the elevator scene as an object. Covers
  input, the NPC loop, spawning, the named characters, the arrival loops
  and the game balance.
- **Disasters** and **Hackathons**: the events as state machines over a
  datatype of their state, with classes whose methods follow them step
  by step.
- **Leaderboard**: the leaderboard. Boards are kept sorted by score,
  ties in arrival order, and the all-time board is cut to `max_scores`.
- **NameEntry**: the initials editor.
- **Engine**: the engine's mode machine.

Objects that the game changes in place are classes:

- the car, the floors and the NPCs;
- the scene;
- the events;
- the leaderboard manager;
- the name editor;
- the engine.

An NPC is one object shared by the scene's list, a floor's queue and the
car's passenger list, as in the game. Each class method is proved against
a pure function of the old state, and the properties are proved about that
function.

Random draws, `datetime` and the score file are parameters:

- A `random.random()` draw is a `real` argument.
- A `random.choice` is a `nat` pick taken modulo the list's length.
- A `random.uniform` draw is a `real` within the drawn range.

The model also records four behaviours that verifying it exposed:

- A delivered NPC can be missing from the scene's list, which makes
  `_handle_elevator_arrivals` raise. See Findings.
- The `made_all_time_board` flag is true even for an entry the board cut
  dropped. See Findings.
- The engine never sets its score and never enters its game-over mode.
  `Engine.NeverGameOver` proves this for every sequence of frames.
- A flood that is forced into resolution before its water has risen
  never ends. `Disasters.FloodCanStall` gives such a flood.

## Model

| member | source | states |
|---|---|---|
| Constants.FloorNumbersAreTheValidFloors | game/core/constants.py:58-185 | the floor table's keys, in declaration order, are exactly the floors -1 .. 12 and 14 .. 17, in strictly increasing order |
| Constants.IndexOfFloor | game/core/constants.py:58-185 | every floor of the tower has its place in the floor table |
| Elevators.FloorYOrdersFloors | game/entities/elevator.py:191-216 | over the floors of the tower, a higher floor always has a smaller y, and floors 12 and 14 are exactly one storey apart because the missing 13th shifts the floors above it down |
| Elevators.NeighbouringFloorsOneStoreyApart | game/entities/elevator.py:204-216 | any two consecutive floors of the floor table sit exactly one `FLOOR_HEIGHT` apart |
| Elevators.StepNeverOvershoots | game/entities/elevator.py:94-101 | one movement step lands between the start and the target y, and closes the gap by exactly the speed or to nothing |
| Elevators.DoorStepStaysInRange | game/entities/elevator.py:66-72 | the door fraction stays in [0, 1], only grows while the doors are open, only shrinks while they are shut, and is fully open after half a second |
| Elevators.Elevator.constructor | game/entities/elevator.py:14-47 | a new car is parked at floor 0 with its doors shut, its door fraction 0 and nobody aboard |
| Elevators.Elevator.FullMeansAtCapacity | game/entities/elevator.py:183-189 | in a valid car, `is_full` holds exactly when six passengers are aboard |
| Elevators.Elevator.Update | game/entities/elevator.py:56-111 | a moving car more than 2 px away steps towards the target without overshooting; within 2 px it snaps to the target y, stops and takes the target as its current floor with cable tension 0; a parked car stays put; the door fraction follows the door flag |
| Elevators.Elevator.MoveToFloor | game/entities/elevator.py:115-127 | the target is set and the car starts moving exactly when the floor is in the floor table, the doors are shut and the floor is not the current one; `moving` is not consulted, so a moving car can be retargeted; otherwise nothing changes |
| Elevators.Elevator.ToggleDoors | game/entities/elevator.py:139-142 | the doors flip unless the car is moving |
| Elevators.Elevator.OpenDoors | game/entities/elevator.py:149-152 | the doors open unless the car is moving |
| Elevators.Elevator.CloseDoors | game/entities/elevator.py:155-157 | the doors are shut afterwards, whatever the state |
| Elevators.Elevator.AddPassenger | game/entities/elevator.py:160-172 | appends at the back and returns true exactly when fewer than six are aboard; otherwise the list is unchanged, so the car never exceeds its capacity |
| Elevators.Elevator.RemovePassenger | game/entities/elevator.py:174-181 | removes the first occurrence if aboard and nothing otherwise; the others keep their order and the multiset loses exactly that passenger |
| Elevators.EnterElevator | game/entities/npc.py:141-154 | the NPC boards, becoming in-elevator and not waiting, exactly when `add_passenger` succeeds; otherwise neither the NPC nor the car changes |
| Elevators.ExitElevator | game/entities/npc.py:156-164 | the NPC leaves the passenger list and is neither in the elevator nor waiting |
| Floors.FloorTableKeys | game/core/constants.py:58-185 | the floor table has a record for exactly the floors -1 .. 12 and 14 .. 17 |
| Floors.ThemesOfTheTower | game/core/constants.py:58-185 | among the floors of the tower only -1 has the evil theme, only 4 the good theme and only 17 the party theme |
| Floors.AtMostOneRole | game/entities/floor.py:44-55 | the `is_*` flags are a function of the floor number; a floor has at most one, and exactly the twelve named floors have one |
| Floors.LosePatience | game/entities/floor.py:87-91 | the loop over a copy of the queue lowers every waiting NPC's patience by dt and removes exactly those left with none, keeping the others in order |
| Floors.Queued | game/entities/floor.py:221-224 | the queue after an add stays within eight, contains the NPC exactly when it was there or there was room, and stays free of duplicates |
| Floors.Floor.constructor | game/entities/floor.py:13-55 | a new floor takes its table record (or the default "Floor n" record for a number outside the table) and its flags, with an empty queue bounded at eight |
| Floors.Floor.Update | game/entities/floor.py:86-91 | every NPC that was waiting loses dt of patience, and the queue becomes the old queue filtered to those whose patience stays positive, in the same order |
| Floors.Floor.AddWaitingNpc | game/entities/floor.py:212-224 | joins the back and returns true exactly when fewer than eight wait; otherwise the queue is unchanged |
| Floors.Floor.RemoveWaitingNpc | game/entities/floor.py:226-233 | removes the NPC's first occurrence if queued and nothing otherwise, preserving the order of the rest |
| Npcs.ChooseDestination | game/entities/npc.py:59-73 | good NPCs go to 4 or 5, evil ones to -1 or 0, all others to one of 0, 1, 2, 3, 5; always a floor of the tower |
| Npcs.ChooseDestinationIsOnto | game/entities/npc.py:59-73 | a floor can be chosen exactly when it is on the type's list |
| Npcs.DestinationWeights | game/entities/npc.py:65-70 | good robots pick floor 4 and evil robots the basement on three draws out of four |
| Npcs.InteractionIsSymmetric | game/entities/npc.py:172-184 | swapping the two NPCs of an interaction swaps the moods they receive, and a reaction exists for one order exactly when it exists for the other |
| Npcs.Npc.constructor | game/entities/npc.py:13-57 | a new NPC waits at floor 0, not in the car, with the drawn destination and patience, neutral mood, cooldown 0 and frame 0; evil NPCs get the drawn aggression, good robots three love charges, evil robots no wins and no rage |
| Npcs.Npc.Update | game/entities/npc.py:92-112 | the frame advances modulo 4 once the timer passes 0.1 s; a positive cooldown drops by dt; patience drops by dt only while waiting outside the car, and the mood turns angry once it is used up |
| Npcs.Npc.InteractWith | game/entities/npc.py:166-186 | nothing happens while the cooldown is positive; otherwise both moods follow the pair of types and the cooldown restarts at 2 s |
| Npcs.Npc.SpreadLove | game/entities/npc.py:376-387 | acts only with a charge left and spends exactly one, so charges never go negative; an evil target turns neutral on a draw below 0.3, a neutral one becomes happy |
| Npcs.Npc.EnterRageMode | game/entities/npc.py:398-402 | rage on, speed times 1.5, aggression 1.0 |
| Npcs.Npc.ChallengeToFight | game/entities/npc.py:404-418 | against an evil robot a draw below the aggression adds a win, and reaching three wins brings rage; against a good robot a draw below 0.5 saddens the target and otherwise the challenger is defeated |
| SpecialNpcs.SpecialFloors | game/entities/special_npcs.py:381-396 | the factory builds a special NPC exactly on floors 0, 2, 3, 4, 6, 7, 11 and 16, and its home is the floor it is made for |
| SpecialNpcs.SharedFloorsOfferBoth | game/entities/special_npcs.py:387-389 | whatever the draw, floor 4 yields Vitaly or Xenia and floor 7 yields Tony or Cindy, and each of the four is drawn by some pick |
| SpecialNpcs.SpecialDestinationsLeaveHome | game/entities/special_npcs.py:61-342 | every destination a special NPC may draw is a floor of the tower and is never its home floor |
| SpecialNpcs.CreateSpecialNpc | game/entities/special_npcs.py:381-396 | returns None exactly off the eight special floors; otherwise a fresh NPC of type "special" whose name, home and current floor, destination (drawn from its own list) and patience are its character's, waiting and not in the car |
| SceneRules.UpRequestIsNextFloor | game/scenes/elevator_scene.py:172-188 | going up asks for the next floor of the tower above (12 jumps to 14), with no floor of the tower in between; it refuses exactly at the roof, or when the car is moving or open, except that 12 always asks for 14 |
| SceneRules.DownRequestIsNextFloor | game/scenes/elevator_scene.py:190-205 | going down asks for the next floor of the tower below (14 jumps to 12), with no floor of the tower in between; it refuses exactly in the basement, or when the car is moving or open, except that 14 always asks for 12 |
| SceneRules.ChaosBreedsRobots | game/scenes/elevator_scene.py:260-273 | for the same draw, more chaos never turns an evil spawn into another type, nor any spawn into a neutral one |
| SceneRules.SpawnOdds | game/scenes/elevator_scene.py:260-273 | with no chaos, draws below 0.2 spawn evil and draws in [0.2, 0.4) spawn good; from chaos 60 on no neutral NPC spawns |
| SceneRules.TimeoutPenaltiesStep | game/scenes/elevator_scene.py:212-220 | penalising one more NPC after a batch is the batch's penalties followed by that NPC's, and an NPC that did not time out costs nothing |
| SceneRules.TimeoutPenaltiesEffect | game/scenes/elevator_scene.py:212-220 | each timeout costs exactly 10 points; chaos and harmony stay in [0, 100], harmony never rises and chaos never drops; without a good NPC harmony is unchanged, and without an evil one chaos is unchanged |
| SceneRules.RoleOf | game/scenes/elevator_scene.py:388-408 | an NPC counts as John, Alan or an escaped robot exactly when its name is "John", "Alan" or "Escaped Robot" |
| SceneRules.DeliveryPointsRange | game/scenes/elevator_scene.py:360-411 | a delivery scores between -10 and 115 points, and less than the base 10 exactly for an escaped robot delivered above the street without a thematic bonus of 20 or more |
| SceneRules.ScoreDeliveriesEffect | game/scenes/elevator_scene.py:360-412 | scoring several deliveries counts each one once; chaos and harmony stay in [0, 100] and never drop; chaos stays put unless an evil robot is delivered to the fight club or an escaped robot above the street |
| SceneRules.ScoreFirstDeliveriesEffect | game/scenes/elevator_scene.py:360-412 | the same facts for the first n deliveries, the induction that carries them |
| SceneRules.DecayStaysInRange | game/scenes/elevator_scene.py:416-418 | decay keeps chaos and harmony in [0, 100], never raises them, and leaves the score and the delivery count alone |
| SceneRules.SpawnIntervalRange | game/scenes/elevator_scene.py:258 | after a spawn the interval lies between 1 s and the base 3 s, and up to chaos 50 it is exactly 3 s minus 0.02 s per chaos point |
| SceneRules.SpawnFloor | game/scenes/elevator_scene.py:239 | the spawn floor is always a floor of the tower |
| SceneRules.EveryFloorSpawns | game/scenes/elevator_scene.py:239 | every floor of the tower is the spawn floor for some draw |
| SceneRules.KindFor | game/scenes/elevator_scene.py:246-251 | a good type builds a good robot, an evil type an evil robot, and any other type a plain NPC of that type |
| SceneRules.BalancedInterval | game/scenes/elevator_scene.py:428-430 | at harmony 75 or below the interval is untouched; above it the interval shrinks by 0.1 s per second, never below half a second and never growing |
| SceneRules.ApplyAllAppend | game/scenes/elevator_scene.py:147-170 | issuing two batches of commands is issuing the first, then the second |
| SceneRules.ApplyAllKeepsCarValid | game/scenes/elevator_scene.py:147-205 | any sequence of commands keeps the car on floors of the tower, never moving with its doors open or towards its own floor, and never changes the floor it stands at |
| SceneRules.ApplyMovesToNeighbour | game/scenes/elevator_scene.py:172-205 | a command that retargets the car sets it moving, and only with the doors shut; up moves to the nearest floor of the tower above and down to the nearest below |
| Scene.BuildFloors | game/scenes/elevator_scene.py:31-41 | the scene gets one fresh, empty, valid floor for exactly the floors of the tower, each at y = 568 minus 120 px per storey, with floors above 13 shifted down by one storey |
| Scene.InteractWithPassengers | game/scenes/elevator_scene.py:223-226 | with its cooldown out, the NPC interacts with the first passenger other than itself, taking the moods the pair of types prescribes and restarting its cooldown; the first interaction blocks the rest, and no other passenger's mood changes |
| Scene.UpdateNpc | game/scenes/elevator_scene.py:209-226 | the NPC's patience follows its `update`, and it counts as timed out exactly when that update leaves it without patience outside the car; its animation timer and frame follow its `update`, its cooldown too unless it is in the car with a fellow passenger and free to interact, which restarts it at 2 s, and outside the car its mood is the one its `update` leaves (angry once its patience is used up while waiting) |
| Scene.UpdateEach | game/scenes/elevator_scene.py:209-226 | every NPC of the copy runs its update once, and the flags say exactly which timed out outside the car; each NPC's animation and cooldown end as its own `update` and interaction leave them, and the mood of each NPC neither in the car nor among its passengers is the one its `update` leaves |
| Scene.UpdateAll | game/scenes/elevator_scene.py:207-226 | the list keeps, in order, exactly the NPCs that did not time out, and stays free of duplicates; the scoreboard takes each timed-out NPC's penalty in order and stays in range; the delivery count is untouched; every NPC's animation, cooldown and, off the car, mood end as in `UpdateEach` |
| Scene.UpdateQueues | game/scenes/elevator_scene.py:88-89 | the floors run `Floor.update` in table order: each queue becomes its old queue filtered, in order, to the NPCs whose patience stays positive, every queued NPC loses dt exactly once, and every floor stays valid |
| Scene.UpdateQueueThenAll | game/scenes/elevator_scene.py:88-92 | one floor's `Floor.update` followed by the NPC loop of `_update_npcs`: an NPC in play waiting on that floor outside the car loses 2 dt of patience in the tick, and one whose patience p has p - dt > 0 >= p - 2 dt has left the NPCs in play while still queued on the floor |
| Scene.RemoveFlagged | game/scenes/elevator_scene.py:209-214 | removing each flagged NPC from the list as the loop reaches it leaves exactly the unflagged ones, in order |
| Scene.DeliveriesOf | game/scenes/elevator_scene.py:352 | one delivery per departing NPC, in car order, carrying its type and what its name means to the score |
| Scene.RemoveDelivered | game/scenes/elevator_scene.py:346-349 | with the removal guarded, the NPCs in play lose one occurrence of each delivered NPC, in car order, and never crash |
| Scene.RemoveDeliveredAsWritten | game/scenes/elevator_scene.py:346-349 | as written, the removals raise exactly when some delivered NPC is no longer in play; otherwise they agree with `RemoveDelivered` |
| Scene.ServeStop | game/scenes/elevator_scene.py:345-358 | the riders bound for the floor leave in car order; then as many of the queue's front as fit board in queue order, and the rest keep waiting |
| Scene.BoardingKeepsApart | game/scenes/elevator_scene.py:354-358 | after boarding, the riders are still distinct, all come from the old car or the front of the queue, and none is among those left waiting |
| Scene.BuildSpawn | game/scenes/elevator_scene.py:243-252 | the spawned NPC has the drawn type and that type's class, is on the spawn floor, waiting, with the drawn destination and patience |
| Scene.BuildJohn | game/scenes/elevator_scene.py:281-287 | John is a fresh neutral plain NPC on the street floor, bound for floor 1, 2 or 3, with a patience of 999 |
| Scene.BuildAlan | game/scenes/elevator_scene.py:302-308 | Alan is a fresh good plain NPC on floor 4, bound for floor 8, 9 or 11, with a patience of 999 |
| Scene.BuildEscapee | game/scenes/elevator_scene.py:322-328 | an escaped robot is a fresh evil robot in the basement, bound for floor 0 .. 3, with a patience of 60, raging at full aggression |
| Scene.AfterDeliveries | game/scenes/elevator_scene.py:346-412 | every delivery counts once, and John or Alan is forgotten exactly when he was absent already or is among the delivered |
| Scene.AfterDeliveriesKeepsBooks | game/scenes/elevator_scene.py:346-412 | deliveries keep the NPCs in play distinct, leaving exactly the old ones minus the riders who left, and keep chaos and harmony in [0, 100] without dropping |
| Scene.ElevatorScene.constructor | game/scenes/elevator_scene.py:16-57 | a new scene has a valid state: the car at y 518 on the street floor, shut, empty and parked; an empty floor for each floor of the tower; no NPCs; the first spawn after 2 s, John after 5 s, Alan after 10 s; zero score, chaos and harmony |
| Scene.ElevatorScene.MoveElevatorUp | game/scenes/elevator_scene.py:172-188 | the car changes exactly as the up command says and the scene stays valid |
| Scene.ElevatorScene.MoveElevatorDown | game/scenes/elevator_scene.py:190-205 | the car changes exactly as the down command says and the scene stays valid |
| Scene.ElevatorScene.HandleKey | game/scenes/elevator_scene.py:149-170 | one key applies its commands to the car; player 2's keys act only in a two-player game |
| Scene.ElevatorScene.HandleInput | game/scenes/elevator_scene.py:147-170 | a batch of keys applies all their commands in order, so the car stays valid and on its floor |
| Scene.ElevatorScene.HandleElevatorArrivals | game/scenes/elevator_scene.py:337-412 | with the car moving or shut nothing changes; otherwise the riders bound for the floor leave in car order and leave play, each scoring as the scoring rules say, and the queue's front boards while there is room; the scene stays valid |
| Scene.ElevatorScene.StopAtCurrentFloor | game/scenes/elevator_scene.py:340-358 | at a stop with the doors open, the same exits, boarding and scoring |
| Scene.ElevatorScene.ServeCurrentFloor | game/scenes/elevator_scene.py:345-358 | the two arrival loops at the car's floor keep the scene valid: riders stay distinct and none is also waiting on a floor |
| Scene.ElevatorScene.DeliverAll | game/scenes/elevator_scene.py:349-352 | the scene's tally becomes the tally after the deliveries, and the scene stays valid |
| Scene.ElevatorScene.Admit | game/scenes/elevator_scene.py:254-255 | a new NPC joins the NPCs in play and, when fewer than eight wait, the back of its floor's queue; a full queue turns it away while it stays in play |
| Scene.ElevatorScene.SpawnNpcs | game/scenes/elevator_scene.py:228-258 | while the timer has time left only the timer runs down; once it is out, the timer restarts at the interval, an NPC of the drawn type joins play and its floor's queue, and the interval is reset from chaos |
| Scene.ElevatorScene.UpdateJohn | game/scenes/elevator_scene.py:275-289 | with John in play nothing changes; otherwise his timer runs down, and once it is out he is built, joins play and the street floor's queue |
| Scene.ElevatorScene.UpdateAlan | game/scenes/elevator_scene.py:295-310 | with Alan in play nothing changes; otherwise his timer runs down, and once it is out he is built, joins play and floor 4's queue |
| Scene.ElevatorScene.UpdateEscapedRobots | game/scenes/elevator_scene.py:316-335 | on a draw below 0.001 an escaped robot joins play, the basement's queue and the list of escaped robots, and chaos rises by 10 up to 100; otherwise nothing changes |
| Scene.ElevatorScene.UpdateGameBalance | game/scenes/elevator_scene.py:414-430 | chaos and harmony decay; the car's emergency mode is on exactly when chaos is above 75; the spawn interval follows the harmony bonus |
| Scene.ElevatorScene.UpdateNpcs | game/scenes/elevator_scene.py:207-226 | the NPCs in play become those that did not time out, in order; each NPC's patience follows its update; the scoreboard takes the penalties of those that timed out; each NPC's animation timer and frame follow `NPC.update`, its cooldown too unless an interaction restarts it at 2 s, and an NPC neither in the car nor among its passengers takes the mood `NPC.update` leaves, angry once its patience is used up |
| Scene.ElevatorScene.UpdateFloors | game/scenes/elevator_scene.py:88-89 | the floor loop of `update` over the scene's floors: each queue keeps, in order, the NPCs whose patience stays positive, every queued NPC loses dt once, and the scene stays valid |
| Arrivals.ExitAtFloor | game/scenes/elevator_scene.py:346-348 | the riders bound for the floor leave in car order and are neither aboard nor waiting; the others stay aboard in order, their flags untouched |
| Arrivals.BoardFromQueue | game/scenes/elevator_scene.py:355-358 | the first min(queue length, free seats) waiting NPCs board in queue order and leave the queue; the rest keep waiting, untouched |
| Disasters.TriggerFromCalm | game/events/disasters.py:51-56 | a calm tower that floods starts active, coherent and in the warning phase alone |
| Disasters.AdvanceKeepsCoherent | game/events/disasters.py:74-122 | every tick of an active flood keeps it coherent: a quiet flood is exactly the calm state, an active one is in exactly one phase, and the stage number and water target match that phase |
| Disasters.WarningEndsInCrisis | game/events/disasters.py:85-91 | when the warning runs out the crisis begins at stage 2, with the water headed for floor 2 |
| Disasters.PeakCallsHeroes | game/events/disasters.py:93-103 | when the rising water reaches its target the flood is at its peak, stage 3, and the heroes are called |
| Disasters.HeroesTurnTheTide | game/events/disasters.py:105-111 | with both heroes helping, the crisis turns into the resolution at stage 4 |
| Disasters.FloodTimesOut | game/events/disasters.py:76-82 | past 45 s a flood is in resolution at stage 4 with the water headed back to its calm line, unless it ended in that very tick, in which case it is calm |
| Disasters.RecedingEndsCalm | game/events/disasters.py:113-122 | once the receding water reaches its calm line the flood ends, reset to the calm state |
| Disasters.FloodCanStall | game/events/disasters.py:76-122 | a single 46 s tick right after the trigger leaves the flood active in resolution with the water at its calm line, and from then on no tick ends it or moves the water |
| Disasters.PanicSubmerged | game/events/disasters.py:135-140 | every NPC the water reaches panics and keeps at least five seconds of patience; every other NPC is untouched |
| Disasters.FloodDisaster.constructor | game/events/disasters.py:14-49 | a new flood is calm |
| Disasters.FloodDisaster.TriggerFlood | game/events/disasters.py:51-56 | the flood becomes active in the warning phase at stage 1 with five seconds of warning, and is coherent when triggered from calm |
| Disasters.FloodDisaster.Reset | game/events/disasters.py:311-329 | every field returns to its calm value |
| Disasters.FloodDisaster.Update | game/events/disasters.py:60-146 | a calm tower floods exactly on a draw below 0.0001, and nothing else changes; an active flood advances its phases and stays coherent; a car the water reaches goes into emergency mode and, below floor 3 with its doors shut, is sent to floor 3; NPCs the water reaches panic and the rest are untouched |
| Disasters.PowerOutage.constructor | game/events/disasters.py:346-352 | a new grid is quiet, with the timer at 0 |
| Disasters.PowerOutage.Trigger | game/events/disasters.py:354-359 | the outage starts with the timer at 0; the emergency lights and the disabled car go with it |
| Disasters.PowerOutage.Update | game/events/disasters.py:361-372 | a quiet grid fails exactly on a draw below 0.00005; an outage lasts while its timer stays within ten seconds, and the lights and the car follow it |
| Disasters.TruncateToInt | game/events/disasters.py:417 | Python's `int` on a float: the integer part, rounding towards zero on both sides of 0 |
| Disasters.FireAlarm.constructor | game/events/disasters.py:402-406 | a new alarm is quiet with the timer at 0 and the siren on |
| Disasters.FireAlarm.Trigger | game/events/disasters.py:408-411 | the alarm starts with thirty seconds on the clock |
| Disasters.FireAlarm.Update | game/events/disasters.py:413-420 | only an active alarm counts down, and it stays active exactly while time is left; the siren is on exactly when the whole quarter-seconds left are even |
| Hackathons.HackerDestinationsAreTheOtherFloors | game/events/hackathon.py:130 | a hacker's possible destinations are exactly the floors of the tower other than floor 2 |
| Hackathons.Triggered | game/events/hackathon.py:50-58 | triggering keeps the event coherent: the meter stays in [0, 100] and the message index stays one of the five |
| Hackathons.AdvanceKeepsCoherent | game/events/hackathon.py:76-110 | a tick of an active hackathon keeps the meter in [0, 100] and the message index valid |
| Hackathons.AtMostOneHackerPerTick | game/events/hackathon.py:86-91 | a tick adds one hacker exactly when one is due during the thirty-second rush and floor 2 exists, and otherwise none |
| Hackathons.EndsAfterTheAftermath | game/events/hackathon.py:76-109 | the clock advances by dt, and the event stays active exactly while its clock is at most forty seconds |
| Hackathons.MetaFollowsTheCrowd | game/events/hackathon.py:94-96 | more than twenty hackers always bring the meta moment, and once shown it stays |
| Hackathons.ElevatorAtFloorTwo | game/events/hackathon.py:262-268 | the floor-2 check holds only for an active hackathon still within its thirty-second rush |
| Hackathons.RushIsOverForGood | game/events/hackathon.py:86-91 | once the thirty seconds are over, no later tick brings the floor-2 check back or spawns a hacker |
| Hackathons.BuildHacker | game/events/hackathon.py:122-155 | the hacker is a fresh neutral NPC on floor 2, named "Hacker" and its number (or, on a draw below 0.1, an elite name), bound for a floor other than floor 2, with the drawn patience |
| Hackathons.HackathonEvent.constructor | game/events/hackathon.py:14-48 | a new event is quiet, coherent, with no hackers and an empty meter |
| Hackathons.HackathonEvent.Trigger | game/events/hackathon.py:50-58 | the event becomes active with its clock at 0, a full meter and no hackers, and stays coherent |
| Hackathons.HackathonEvent.SpawnHacker | game/events/hackathon.py:112-156 | without a floor 2 nothing changes; otherwise a fresh hacker joins the NPC list and, when fewer than eight wait, floor 2's queue; the count rises by one and the meter by 10, up to 100 |
| Hackathons.HackathonEvent.Update | game/events/hackathon.py:61-110 | a quiet event starts exactly on a draw below 0.0002; an active one advances as the step function says and stays coherent; a hacker is returned, last in the NPC list, exactly when one is due and floor 2 exists |
| Leaderboard.Initials | game/core/leaderboard.py:86 | the stored name is the first three characters of the given name (all of it when shorter), each upper-cased, with no lower-case ASCII letter left |
| Leaderboard.InsertPos | game/core/leaderboard.py:94-99 | the insertion point lies within the list; every entry before it scores at least the new score, and the entry at it, if any, scores less |
| Leaderboard.InsertByScoreSorted | game/core/leaderboard.py:94-99 | inserting into a sorted board keeps it sorted by score, highest first |
| Leaderboard.InsertPosAtEnd | game/core/leaderboard.py:94-99 | a score no higher than any on the board goes to the end |
| Leaderboard.InsertAtEnd | game/core/leaderboard.py:94-99 | an entry that scores no more than any on the board is appended |
| Leaderboard.InsertByScoreAdds | game/core/leaderboard.py:94-99 | insertion adds exactly one entry: the new entry sits at the insertion point, removing it gives back the old board, and the multiset grows by that entry |
| Leaderboard.InsertByScoreSplitsTies | game/core/leaderboard.py:94-99 | on a sorted board the new entry follows every entry with an equal or higher score and precedes every lower one, so ties keep arrival order as Python's stable sort does |
| Leaderboard.SortByScoreSorts | game/core/leaderboard.py:42 | sorting by score yields a list in non-increasing score order |
| Leaderboard.SortByScorePermutes | game/core/leaderboard.py:42 | sorting by score is a permutation: the multiset of entries is unchanged |
| Leaderboard.SortedIsFixed | game/core/leaderboard.py:94-99 | sorting a list that is already sorted by score leaves it unchanged, as a stable sort does |
| Leaderboard.SortAfterAppend | game/core/leaderboard.py:94-99 | appending to a sorted list and then sorting is the same as inserting the entry after every entry that does not score less |
| Leaderboard.AppendSortCut | game/core/leaderboard.py:94-102 | append, sort and cut give a sorted board, and so does its first-n prefix |
| Leaderboard.Rank | game/core/leaderboard.py:120-133 | the rank is -1 exactly when the entry is absent; otherwise it is the 1-based position of its first occurrence |
| Leaderboard.MadeBoardMeansOnBoard | game/core/leaderboard.py:117 | with the corrected test (rank between 1 and `max_scores`), the flag holds exactly when the entry is on a board cut to `max_scores` |
| Leaderboard.MadeBoardAsWrittenMisfires | game/core/leaderboard.py:117 | as written, a score of 5 against a full board of ten 100s is cut off, yet `rank <= max_scores` with rank -1 still reports it made the board |
| Leaderboard.RankingOf | game/core/leaderboard.py:108-118 | all-time high exactly when the entry heads the board, session high exactly when it heads the session list, and, with the corrected `made_all_time_board` flag (not the source's `rank <= max_scores`; see Findings), on the board exactly when it is among the first `max_scores` |
| Leaderboard.HighScoreIffKept | game/core/leaderboard.py:135-146 | for a new entry and a board within its limit, `is_high_score` holds exactly when `add_score` keeps the entry on the cut board |
| Leaderboard.TopScoresAreTheBest | game/core/leaderboard.py:148-157 | the first n entries of a sorted board score at least as much as every entry after them |
| Leaderboard.HighScoreIsTheMaximum | game/core/leaderboard.py:175-183 | on a sorted non-empty board the high score is some entry's score and no entry beats it |
| Leaderboard.LeaderboardManager.constructor | game/core/leaderboard.py:14-42 | the loaded board is sorted and a permutation of the stored entries; the session list is empty |
| Leaderboard.LeaderboardManager.AddScore | game/core/leaderboard.py:74-118 | the session list gains the entry in score order; the board gains it in score order and is cut to `max_scores`; both stay sorted; the ranking is taken from the new lists; and the corrected board flag (see Findings) agrees with `is_high_score` on the old board for a new entry |
| Leaderboard.LeaderboardManager.IsHighScoreNow | game/core/leaderboard.py:135-146 | the same answer as the board-level `is_high_score`, which `Leaderboard.HighScoreIffKept` proves to predict whether `add_score` keeps the entry; the requires excludes only the source's IndexError |
| Leaderboard.LeaderboardManager.GetTopScores | game/core/leaderboard.py:148-157 | a prefix of the board, n entries long when it has that many; it is sorted, and each entry in it scores at least as much as every entry left out |
| Leaderboard.LeaderboardManager.GetSessionScores | game/core/leaderboard.py:159-168 | a prefix of the session list, n entries long when it has that many; it is sorted, and each entry in it scores at least as much as every entry left out |
| Leaderboard.LeaderboardManager.ClearSession | game/core/leaderboard.py:170-173 | the session list is emptied under a new session id, and the board stays valid |
| Leaderboard.LeaderboardManager.GetHighScore | game/core/leaderboard.py:175-183 | 0 for an empty board; otherwise a score on the board that no entry beats |
| Leaderboard.LeaderboardManager.GetSessionHighScore | game/core/leaderboard.py:185-193 | 0 for an empty session; otherwise a score in the session that no entry beats |
| NameEntry.NameOf | game/scenes/name_entry_scene.py:98 | the shown name has one character per slot, each from the alphabet |
| NameEntry.PressKeepsCoherent | game/scenes/name_entry_scene.py:70-83 | every key keeps three slots on the alphabet and the cursor on a slot |
| NameEntry.PressAll | game/scenes/name_entry_scene.py:70-83 | any sequence of keys keeps the editor coherent |
| NameEntry.InitialShowsAAA | game/scenes/name_entry_scene.py:25-32 | a fresh editor is coherent and shows "AAA" |
| NameEntry.ChangeCharacterWraps | game/scenes/name_entry_scene.py:85-98 | up and down step only the slot under the cursor, by one modulo the alphabet's 37 characters, wrapping from the last character to the first and back |
| NameEntry.UpDownRestores | game/scenes/name_entry_scene.py:72-75 | up then down, or down then up, leaves the editor as it was, even across the wrap |
| NameEntry.MovePositionClamps | game/scenes/name_entry_scene.py:100-108 | the cursor never leaves the three slots: it moves by the step when it can and otherwise stops at the nearer end; backspace acts exactly like the left key |
| NameEntry.SubmitFixesName | game/scenes/name_entry_scene.py:110-113 | submitting completes the entry with a three-character name, slot by slot the characters shown, and leaves the slots alone |
| NameEntry.NameEntryScene.constructor | game/scenes/name_entry_scene.py:12-32 | a new scene shows "AAA" with the cursor on the first slot and nothing submitted |
| NameEntry.NameEntryScene.ChangeCharacter | game/scenes/name_entry_scene.py:85-98 | the slot index and its character change together, as the editor step says, and no other character changes |
| NameEntry.NameEntryScene.MovePosition | game/scenes/name_entry_scene.py:100-108 | the cursor moves as the clamped editor step says |
| NameEntry.NameEntryScene.SubmitName | game/scenes/name_entry_scene.py:110-113 | the submitted name is the characters the slots show, and the entry is complete |
| NameEntry.NameEntryScene.PressKey | game/scenes/name_entry_scene.py:71-83 | one key changes the scene as the editor step for that key says |
| NameEntry.NameEntryScene.Update | game/scenes/name_entry_scene.py:70-83 | a frame's keys change the scene as the editor steps say, in order, and keep the shown characters in step with the indices |
| Engine.GameOverDrawn | game/core/engine.py:237-249 | drawing the game-over screen raises the high score to the score when the score is higher, and changes nothing else |
| Engine.LoopNeverEntersGameOver | game/core/engine.py:78-235 | no key handler ever selects the game-over mode |
| Engine.StepNeverEntersGameOver | game/core/engine.py:42-62 | `update` never moves the engine into the game-over mode |
| Engine.LoopSwitchesOnKey | game/core/engine.py:202-235 | the pause, resume and back-to-menu loops switch to their target mode exactly when their key was pressed, and otherwise change nothing |
| Engine.PlayingPausesOnP | game/core/engine.py:49-56 | in a game with a scene, P pauses and other keys change nothing; without a scene nothing changes |
| Engine.PausedResumesOnlyOnP | game/core/engine.py:202-207 | P resumes a paused game, and no other key leaves the pause screen |
| Engine.GameOverReturnsToMenu | game/core/engine.py:230-235 | space on the game-over screen returns to the menu, and nothing else changes |
| Engine.LastStart | game/core/engine.py:78-90 | 0 exactly when no start key was pressed, otherwise 1 or 2 |
| Engine.MenuStartsGames | game/core/engine.py:78-90 | in the menu the last start key wins: space starts a one-player game and 2 a two-player game, with a fresh scene and score 0; without a start key nothing changes |
| Engine.NeverGameOver | game/core/engine.py:23-62 | from the initial state, whatever the frames, the engine never reaches game over and its score and high score stay 0 |
| Engine.GameEngine.constructor | game/core/engine.py:13-36 | a new engine is in the menu with one player, no scores and no scene |
| Engine.GameEngine.StartGame | game/core/engine.py:195-200 | a game starts: the player count is set, the mode is playing, the scene is fresh and the score is 0 |
| Engine.GameEngine.UpdateMenu | game/core/engine.py:78-90 | the menu's event loop handles the keys in order as the menu handler says |
| Engine.GameEngine.UpdatePaused | game/core/engine.py:202-207 | the pause screen's loop handles the keys in order as the pause handler says |
| Engine.GameEngine.UpdateGameOver | game/core/engine.py:230-235 | the game-over screen's loop handles the keys in order as its handler says |
| Engine.GameEngine.CheckPause | game/core/engine.py:53-56 | the pause check after a scene update handles the keys in order as the playing handler says |
| Engine.GameEngine.Update | game/core/engine.py:42-62 | one frame's keys change the engine as the mode step says |
| Engine.GameEngine.DrawGameOver | game/core/engine.py:248-249 | the high score catches up with the score |

## Left out

- Rendering is not modelled: every `draw` and `_draw_*` method, the camera, screen shake, flash, the tutorial timer, particles and glow.
- Sound is not modelled; the car's `play_sfx` calls are dropped.
- x coordinates are not modelled, nor the walk of an NPC towards the car.
- Every `random.*` call is a parameter: a `real` draw, or a `nat` pick taken modulo the list's length.
- Timers and levels are `real` numbers; IEEE float rounding is not modelled.
- Key events are decoded into small key datatypes; pygame's event objects are not modelled.
- The score file (`load_scores`, `save_scores`) and `datetime` are not modelled. The constructor takes the stored list as a parameter; dates and session ids are opaque strings.
- Leaderboard.Initials: `str.upper` is modelled for ASCII letters only; other characters are kept as they are.
- Leaderboard.LeaderboardManager.AddScore: the returned `made_all_time_board` is the corrected `Leaderboard.MadeBoard` (1 <= rank <= `max_scores`), not the source's `rank <= max_scores`, which is `Leaderboard.MadeBoardAsWritten` and is also true for a dropped entry's rank -1 (see Findings).
- Leaderboard.RankingOf: builds the same corrected flag, for the same reason.
- Leaderboard.IsHighScore: its requires excludes the IndexError Python raises on an empty board when `max_scores` is 0 or less.
- Leaderboard.LeaderboardManager.IsHighScoreNow: same requires, for the same IndexError.
- Engine.GameEngine.Update: the scene's own frame is reduced to whether a scene exists. The engine-level model does not call into `ElevatorScene.update`.
- The scene's frame `update` (game/scenes/elevator_scene.py:74-121) is not one composed method. Its steps are modelled and proved one by one: input, the car, the floor loop, the NPC loop, spawning, the named characters, arrivals and balance.
- Scene.UpdateQueueThenAll: the double patience loss is stated for one floor's `Floor.update` followed by the NPC loop on the list and scoreboard passed in. It is not stated for the scene's `UpdateFloors` followed by `UpdateNpcs` as one method; those two differ only in running every floor and in storing the loop's results in the scene.
- Scene.ElevatorScene.UpdateNpcs: a passenger's mood after the interactions of its fellow passengers is stated one interaction at a time, by `Scene.InteractWithPassengers`, not for the whole loop.
- Hackathons.HackathonEvent.SpawnHacker: the scene's `npcs` list is passed in and returned rather than shared.
- `FloodDisaster._update_effects` (screen shake and particles) is not modelled, nor the flood pushing panicking NPCs sideways towards the car. `_spawn_heroes` only sets its flag, and so does the model.
- game/core/ai_sprite_generator.py is not part of this model (image generation over a foreign service).
- game/core/sound_generator.py and game/core/sound_manager.py are not part of this model (waveform synthesis).
- game/scenes/intro_scene.py is not part of this model (an animation).
- main.py, main_web.py, build_web.py and config.py are not part of this model (event loops, packaging and settings).

## Findings

| source | as written | input that shows it | evidently intended | confidence | as-written member | corrected member |
|---|---|---|---|---|---|---|
| game/scenes/elevator_scene.py:349 | `self.npcs.remove(npc)` for every delivered passenger. An NPC whose patience ran out in `_update_npcs` has already left `npcs`, but it is still in its floor queue and can board in the same tick. | The car stops at floor F with its doors open and a free seat. NPC X waits at F with patience p, where p - dt > 0 >= p - 2*dt. `Floor.update` leaves X queued, `NPC.update` lowers p again, `_update_npcs` drops X from `npcs`, and X boards. When X reaches its destination, `remove` raises ValueError. `Scene.UpdateQueueThenAll` proves the middle step: such an X leaves `npcs` while it is still queued at F. | remove the delivered NPC from `npcs` only when it is there | not executed | Scene.RemoveDeliveredAsWritten | Scene.RemoveDelivered |
| game/core/leaderboard.py:117 | `made_all_time_board = all_time_rank <= self.max_scores`, which also holds for the rank -1 of an entry the cut dropped | ten entries scoring 100, `max_scores` 10, and a new score of 5: the 5 is cut off with rank -1, yet the flag is true | `1 <= all_time_rank <= max_scores` | not executed | Leaderboard.MadeBoardAsWrittenMisfires | Leaderboard.MadeBoardMeansOnBoard |
