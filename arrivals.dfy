/**
 * The two loops of `_handle_elevator_arrivals` on the car and the floor:
 * passengers for this floor get off in car order, then the floor's queue
 * boards from the front while the car has room.
 */
module Arrivals {
  import opened Constants
  import opened Seqs
  import opened Npcs
  import opened Elevators
  import opened Floors

  /** Whether each passenger's destination is floor `f`. */
  function AlightFlags(ps: seq<Npc>, f: int): (r: seq<bool>)
    reads ps
    ensures |r| == |ps| && forall k :: 0 <= k < |ps| ==> r[k] == (ps[k].destinationFloor == f)
  {
    seq(|ps|, k requires 0 <= k < |ps| reads ps => ps[k].destinationFloor == f)
  }

  /** An NPC's two riding flags, `in_elevator` and `waiting`. */
  datatype Seat = Seat(inElevator: bool, waiting: bool)

  /** The riding flags of each NPC of `ps`, in order. */
  function Seats(ps: seq<Npc>): (r: seq<Seat>)
    reads ps
    ensures |r| == |ps|
  {
    seq(|ps|, k requires 0 <= k < |ps| reads ps => Seat(ps[k].inElevator, ps[k].waiting))
  }

  /**
   * The riding flags after the first `n` flagged NPCs have left the car:
   * those are neither aboard nor waiting, everyone else keeps their flags.
   */
  function ExitedPrefix(before: seq<Seat>, flags: seq<bool>, n: nat): (r: seq<Seat>)
    requires |flags| == |before|
    ensures |r| == |before|
  {
    seq(|before|, k requires 0 <= k < |before| => if k < n && flags[k] then Seat(false, false) else before[k])
  }

  /**
   * The state of the exit loop after its first `i` iterations over the copy
   * `ps` of the passenger list: the flagged ones among them have left the
   * car, in order, and have had their riding flags cleared.
   */
  ghost predicate ExitedFirst(elevator: Elevator, ps: seq<Npc>, flags: seq<bool>, before: seq<Seat>, leaving: seq<Npc>, i: nat)
    reads elevator, ps
  {
    && |flags| == |ps| && |before| == |ps| && i <= |ps| && NoDuplicates(ps) && elevator.Valid()
    && elevator.passengers == UnflaggedPrefix(ps, flags, i) + ps[i..]
    && leaving == FlaggedPrefix(ps, flags, i)
    && Seats(ps) == ExitedPrefix(before, flags, i)
  }

  /**
   * One iteration of the exit loop: the passenger at index `i` of the copy
   * calls `exit_elevator` and joins the delivered list when it is flagged.
   */
  method ExitStep(elevator: Elevator, ps: seq<Npc>, flags: seq<bool>, ghost before: seq<Seat>, leaving: seq<Npc>, i: nat)
      returns (leaving': seq<Npc>)
    requires ExitedFirst(elevator, ps, flags, before, leaving, i) && i < |ps|
    modifies elevator`passengers, {ps[i]}`inElevator, {ps[i]}`waiting
    ensures ExitedFirst(elevator, ps, flags, before, leaving', i + 1)
  {
    if flags[i] {
      leaving' := AlightOne(elevator, ps, flags, before, leaving, i);
    } else {
      UnflaggedStep(ps, flags, i, elevator.passengers);
      assert ExitedPrefix(before, flags, i + 1) == ExitedPrefix(before, flags, i);
      leaving' := leaving;
    }
  }

  /** The flagged case of `ExitStep`: the passenger at index `i` gets off. */
  method AlightOne(elevator: Elevator, ps: seq<Npc>, flags: seq<bool>, ghost before: seq<Seat>, leaving: seq<Npc>, i: nat)
      returns (leaving': seq<Npc>)
    requires ExitedFirst(elevator, ps, flags, before, leaving, i) && i < |ps| && flags[i]
    modifies elevator`passengers, {ps[i]}`inElevator, {ps[i]}`waiting
    ensures ExitedFirst(elevator, ps, flags, before, leaving', i + 1)
  {
    var npc := ps[i];
    UnflaggedStep(ps, flags, i, elevator.passengers);
    ghost var seats := Seats(ps);
    ExitElevator(npc, elevator);
    forall k | 0 <= k < |ps| && k != i
      ensures Seats(ps)[k] == seats[k]
    {
      assert ps[k] != npc;
    }
    assert Seats(ps) == seats[i := Seat(false, false)];
    leaving' := leaving + [npc];
    assert ExitedPrefix(before, flags, i + 1) == ExitedPrefix(before, flags, i)[i := Seat(false, false)];
  }

  /**
   * The exit loop, car side: walking over a copy of the passenger list,
   * everyone bound for floor `f` calls `exit_elevator`. The result lists
   * them in car order; the others stay aboard in their order, untouched.
   */
  method ExitAtFloor(elevator: Elevator, f: int) returns (leaving: seq<Npc>)
    requires elevator.Valid() && NoDuplicates(elevator.passengers)
    modifies elevator`passengers, elevator.passengers`inElevator, elevator.passengers`waiting
    ensures elevator.Valid()
    ensures leaving == Flagged(old(elevator.passengers), old(AlightFlags(elevator.passengers, f)))
    ensures elevator.passengers == Unflagged(old(elevator.passengers), old(AlightFlags(elevator.passengers, f)))
    ensures Seats(old(elevator.passengers)) ==
      ExitedPrefix(old(Seats(elevator.passengers)), old(AlightFlags(elevator.passengers, f)), |old(elevator.passengers)|)
  {
    var ps := elevator.passengers;
    var flags := AlightFlags(ps, f);
    ghost var before := Seats(ps);
    assert ExitedFirst(elevator, ps, flags, before, [], 0);
    leaving := ExitRemaining(elevator, ps, flags, before, [], 0);
    assert ps[|ps|..] == [];
    assert elevator.passengers == Unflagged(ps, flags) && leaving == Flagged(ps, flags);
    assert ps == old(elevator.passengers) && flags == old(AlightFlags(elevator.passengers, f)) && before == old(Seats(elevator.passengers));
  }

  /** The exit loop from iteration `i` on. */
  method ExitRemaining(elevator: Elevator, ps: seq<Npc>, flags: seq<bool>, ghost before: seq<Seat>, leaving: seq<Npc>, i: nat)
      returns (leaving': seq<Npc>)
    requires ExitedFirst(elevator, ps, flags, before, leaving, i)
    modifies elevator`passengers, ps`inElevator, ps`waiting
    ensures ExitedFirst(elevator, ps, flags, before, leaving', |ps|)
  {
    leaving' := leaving;
    var j := i;
    while j < |ps|
      invariant ExitedFirst(elevator, ps, flags, before, leaving', j)
    {
      leaving' := ExitStep(elevator, ps, flags, before, leaving', j);
      j := j + 1;
    }
  }

  /**
   * The boarding loop: walking over a copy of the floor's queue, each NPC
   * enters while the car is not full and then leaves the queue. So the
   * first `min(|queue|, room)` board in queue order and the rest keep
   * waiting.
   */
  method BoardFromQueue(elevator: Elevator, floor: Floor) returns (boarded: nat)
    requires elevator.Valid() && floor.Valid() && NoDuplicates(floor.waiting)
    modifies elevator`passengers, floor`waiting, floor.waiting`inElevator, floor.waiting`waiting
    ensures elevator.Valid() && floor.Valid()
    ensures var room := ElevatorMaxCapacity - |old(elevator.passengers)|;
      boarded == if |old(floor.waiting)| < room then |old(floor.waiting)| else room
    ensures elevator.passengers == old(elevator.passengers) + old(floor.waiting)[..boarded]
    ensures floor.waiting == old(floor.waiting)[boarded..]
    ensures forall k :: 0 <= k < boarded ==> old(floor.waiting)[k].inElevator && !old(floor.waiting)[k].waiting
    ensures forall k :: boarded <= k < |old(floor.waiting)| ==>
      old(floor.waiting)[k].inElevator == old(floor.waiting[k].inElevator) && old(floor.waiting)[k].waiting == old(floor.waiting[k].waiting)
  {
    var q := floor.waiting;
    var room := ElevatorMaxCapacity - |elevator.passengers|;
    boarded := 0;
    var i := 0;
    while i < |q|
      invariant 0 <= i <= |q|
      invariant boarded == if i < room then i else room
      invariant elevator.Valid() && floor.Valid()
      invariant elevator.passengers == old(elevator.passengers) + q[..boarded]
      invariant floor.waiting == q[boarded..]
      invariant forall k :: 0 <= k < boarded ==> q[k].inElevator && !q[k].waiting
      invariant forall k :: boarded <= k < |q| ==> q[k].inElevator == old(q[k].inElevator) && q[k].waiting == old(q[k].waiting)
    {
      var npc := q[i];
      if !elevator.IsFull() {
        assert q[boarded..] == [npc] + q[boarded + 1..];
        BoardOne(elevator, floor, npc);
        assert q[..boarded + 1] == q[..boarded] + [npc];
        boarded := boarded + 1;
      }
      i := i + 1;
    }
  }

  /**
   * One iteration of the boarding loop while the car has room: the NPC at
   * the front of the queue enters, which succeeds, and so leaves the queue.
   */
  method BoardOne(elevator: Elevator, floor: Floor, npc: Npc)
    requires elevator.Valid() && floor.Valid() && !elevator.IsFull()
    requires floor.waiting != [] && floor.waiting[0] == npc && NoDuplicates(floor.waiting)
    modifies elevator`passengers, floor`waiting, npc`inElevator, npc`waiting
    ensures elevator.Valid() && floor.Valid()
    ensures elevator.passengers == old(elevator.passengers) + [npc]
    ensures floor.waiting == old(floor.waiting)[1..]
    ensures npc.inElevator && !npc.waiting
  {
    var entered := EnterElevator(npc, elevator);
    if entered {
      floor.RemoveWaitingNpc(npc);
      assert floor.waiting == RemoveFirst(old(floor.waiting), npc);
    }
  }
}
