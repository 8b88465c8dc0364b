/**
 * The player-controlled elevator car: guarded move and door commands, a
 * door fraction clamped to [0, 1], movement that never overshoots, and a
 * passenger list bounded by the car's capacity.
 */
module Elevators {
  import opened Constants
  import opened Seqs
  import opened Npcs

  /** Floors above the missing 13th sit one storey lower than their number says. */
  function AdjustedFloor(f: int): int {
    if f > MissingFloor then f - 1 else f
  }

  /** `_get_floor_y`: the car's y for a floor, so that its bottom rests on the floor line. */
  function FloorY(f: int): int {
    (ScreenHeight - 200) - AdjustedFloor(f) * FloorHeight - ElevatorHeight + 10
  }

  /** Higher floors are higher on screen (smaller y), and floor 12 and floor 14 are one storey apart. */
  lemma {:induction false} FloorYOrdersFloors(a: int, b: int)
    requires ValidFloor(a) && ValidFloor(b)
    ensures a < b <==> FloorY(a) > FloorY(b)
    ensures FloorY(12) - FloorY(14) == FloorHeight
  {
  }

  /** Consecutive floors of the tower are exactly one storey apart. */
  lemma {:induction false} NeighbouringFloorsOneStoreyApart(i: int)
    requires 0 <= i < |FloorNumbers| - 1
    ensures FloorY(FloorNumbers[i]) - FloorY(FloorNumbers[i + 1]) == FloorHeight
  {
  }

  /** Python's `abs` on reals. */
  function Abs(x: real): real {
    if x < 0.0 then -x else x
  }

  /** Pixels per second is converted into the distance the car may cover this tick. */
  function Step(y: real, target: real, speed: real): real {
    if target - y > 0.0 then (if y + speed < target then y + speed else target)
    else (if y - speed > target then y - speed else target)
  }

  /** A step lands between the start and the target, and closes the gap by `speed` or to nothing. */
  lemma {:induction false} StepNeverOvershoots(y: real, target: real, speed: real)
    requires speed >= 0.0
    ensures y <= target ==> y <= Step(y, target, speed) <= target
    ensures target <= y ==> target <= Step(y, target, speed) <= y
    ensures Abs(target - Step(y, target, speed)) == if Abs(target - y) > speed then Abs(target - y) - speed else 0.0
  {
  }

  /** The door fraction after one tick: towards 1 at twice dt while open, towards 0 otherwise. */
  function DoorStep(position: real, open: bool, dt: real): real {
    if open then (if position < 1.0 then (if position + dt * 2.0 < 1.0 then position + dt * 2.0 else 1.0) else position)
    else (if position > 0.0 then (if position - dt * 2.0 > 0.0 then position - dt * 2.0 else 0.0) else position)
  }

  /** The door fraction stays in [0, 1] and moves only in the direction of the door flag. */
  lemma {:induction false} DoorStepStaysInRange(position: real, open: bool, dt: real)
    requires 0.0 <= position <= 1.0 && dt >= 0.0
    ensures 0.0 <= DoorStep(position, open, dt) <= 1.0
    ensures open ==> DoorStep(position, open, dt) >= position
    ensures !open ==> DoorStep(position, open, dt) <= position
    ensures open && dt >= 0.5 ==> DoorStep(position, open, dt) == 1.0
  {
  }

  class Elevator {
    var y: real
    var targetFloor: int
    var currentFloor: int
    var moving: bool
    var doorsOpen: bool
    /** 0 is closed, 1 fully open. */
    var doorPosition: real
    var passengers: seq<Npc>
    var cableTension: real
    var emergencyMode: bool

    /**
     * The car never holds more than its capacity, always refers to floors
     * of the tower, and only moves with its doors shut towards a floor other
     * than the one it last stopped at.
     */
    predicate Valid()
      reads this
    {
      && |passengers| <= ElevatorMaxCapacity
      && 0.0 <= doorPosition <= 1.0
      && ValidFloor(currentFloor) && ValidFloor(targetFloor)
      && (moving ==> !doorsOpen && targetFloor != currentFloor)
    }

    /** `Elevator.__init__`: parked at floor 0 with its doors shut and nobody aboard. */
    constructor (y: real)
      ensures Valid()
      ensures this.y == y && targetFloor == 0 && currentFloor == 0 && !moving
      ensures !doorsOpen && doorPosition == 0.0 && passengers == [] && cableTension == 0.0 && !emergencyMode
    {
      this.y := y;
      targetFloor := 0;
      currentFloor := 0;
      moving := false;
      doorsOpen := false;
      doorPosition := 0.0;
      passengers := [];
      cableTension := 0.0;
      emergencyMode := false;
    }

    /** `is_full`. */
    predicate IsFull()
      reads this
    {
      |passengers| >= ElevatorMaxCapacity
    }

    /** In a valid car, full means exactly at capacity. */
    lemma FullMeansAtCapacity()
      requires Valid()
      ensures IsFull() <==> |passengers| == ElevatorMaxCapacity
    {
    }

    /**
     * `update` with `_update_movement`: a moving car steps towards the
     * target floor's y at 200 px/s and arrives once within 2 px, taking the
     * target as its current floor; the doors then move towards their flag.
     */
    method Update(dt: real)
      requires Valid() && dt >= 0.0
      modifies this`y, this`moving, this`currentFloor, this`cableTension, this`doorPosition
      ensures Valid()
      ensures old(moving) && Abs(FloorY(targetFloor) as real - old(y)) > 2.0 ==>
        y == Step(old(y), FloorY(targetFloor) as real, ElevatorSpeed * dt) &&
        moving && currentFloor == old(currentFloor) && cableTension == 0.5
      ensures old(moving) && Abs(FloorY(targetFloor) as real - old(y)) <= 2.0 ==>
        y == FloorY(targetFloor) as real && !moving && currentFloor == targetFloor && cableTension == 0.0
      ensures !old(moving) ==>
        y == old(y) && !moving && currentFloor == old(currentFloor) && cableTension == old(cableTension)
      ensures old(moving) ==> var ty := FloorY(targetFloor) as real;
        (old(y) <= ty ==> old(y) <= y <= ty) && (ty <= old(y) ==> ty <= y <= old(y))
      ensures doorPosition == DoorStep(old(doorPosition), doorsOpen, dt)
    {
      if moving {
        StepNeverOvershoots(y, FloorY(targetFloor) as real, ElevatorSpeed * dt);
        var targetY := FloorY(targetFloor) as real;
        var distance := targetY - y;
        if Abs(distance) > 2.0 {
          var speed := ElevatorSpeed * dt;
          if distance > 0.0 {
            y := if y + speed < targetY then y + speed else targetY;
          } else {
            y := if y - speed > targetY then y - speed else targetY;
          }
          cableTension := 0.5;
        } else {
          y := targetY;
          moving := false;
          currentFloor := targetFloor;
          cableTension := 0.0;
        }
      }
      DoorStepStaysInRange(doorPosition, doorsOpen, dt);
      doorPosition := DoorStep(doorPosition, doorsOpen, dt);
    }

    /**
     * `move_to_floor`: accepted only for a floor of the tower, with the
     * doors shut, other than the current one; it does not look at `moving`,
     * so a moving car can be sent elsewhere.
     */
    method MoveToFloor(f: int)
      requires Valid()
      modifies this`targetFloor, this`moving
      ensures Valid()
      ensures ValidFloor(f) && !doorsOpen && f != currentFloor ==> targetFloor == f && moving
      ensures !(ValidFloor(f) && !doorsOpen && f != currentFloor) ==>
        targetFloor == old(targetFloor) && moving == old(moving)
    {
      if ValidFloor(f) && !doorsOpen {
        if f == currentFloor {
          return;
        }
        targetFloor := f;
        moving := true;
      }
    }

    /** `toggle_doors`: flips the doors unless the car is moving. */
    method ToggleDoors()
      requires Valid()
      modifies this`doorsOpen
      ensures Valid()
      ensures doorsOpen == if moving then old(doorsOpen) else !old(doorsOpen)
    {
      if !moving {
        doorsOpen := !doorsOpen;
      }
    }

    /** `open_doors`: opens unless the car is moving. */
    method OpenDoors()
      requires Valid()
      modifies this`doorsOpen
      ensures Valid()
      ensures doorsOpen == if moving then old(doorsOpen) else true
    {
      if !moving {
        doorsOpen := true;
      }
    }

    /** `close_doors`: always shuts them. */
    method CloseDoors()
      requires Valid()
      modifies this`doorsOpen
      ensures Valid() && !doorsOpen
    {
      doorsOpen := false;
    }

    /** `add_passenger`: appends at the back and reports success only while below capacity. */
    method AddPassenger(p: Npc) returns (added: bool)
      requires Valid()
      modifies this`passengers
      ensures Valid()
      ensures added <==> |old(passengers)| < ElevatorMaxCapacity
      ensures passengers == if added then old(passengers) + [p] else old(passengers)
    {
      if |passengers| < ElevatorMaxCapacity {
        passengers := passengers + [p];
        return true;
      }
      return false;
    }

    /** `remove_passenger`: drops the passenger's first occurrence, or nothing if it is not aboard. */
    method RemovePassenger(p: Npc)
      requires Valid()
      modifies this`passengers
      ensures Valid()
      ensures passengers == RemoveFirst(old(passengers), p)
      ensures p in old(passengers) ==> |passengers| == |old(passengers)| - 1
      ensures multiset(passengers) == multiset(old(passengers)) - multiset{p}
    {
      RemoveFirstMultiset(passengers, p);
      if p in passengers {
        passengers := RemoveFirst(passengers, p);
      }
    }
  }

  /**
   * `NPC.enter_elevator`: the NPC boards, leaving the waiting state, exactly
   * when the car accepts it; otherwise nothing changes.
   */
  method EnterElevator(npc: Npc, elevator: Elevator) returns (entered: bool)
    requires elevator.Valid()
    modifies npc`inElevator, npc`waiting, elevator`passengers
    ensures elevator.Valid()
    ensures entered <==> |old(elevator.passengers)| < ElevatorMaxCapacity
    ensures elevator.passengers == if entered then old(elevator.passengers) + [npc] else old(elevator.passengers)
    ensures entered ==> npc.inElevator && !npc.waiting
    ensures !entered ==> npc.inElevator == old(npc.inElevator) && npc.waiting == old(npc.waiting)
  {
    entered := elevator.AddPassenger(npc);
    if entered {
      npc.inElevator := true;
      npc.waiting := false;
    }
  }

  /** `NPC.exit_elevator`: leaves the car and is neither aboard nor waiting any more. */
  method ExitElevator(npc: Npc, elevator: Elevator)
    requires elevator.Valid()
    modifies npc`inElevator, npc`waiting, elevator`passengers
    ensures elevator.Valid()
    ensures elevator.passengers == RemoveFirst(old(elevator.passengers), npc)
    ensures multiset(elevator.passengers) == multiset(old(elevator.passengers)) - multiset{npc}
    ensures !npc.inElevator && !npc.waiting
  {
    elevator.RemovePassenger(npc);
    npc.inElevator := false;
    npc.waiting := false;
  }
}
