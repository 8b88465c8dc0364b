/** Game-wide constants of the tower and the floor-number space. */
module Constants {

  const ScreenHeight: int := 768
  const FloorHeight: int := 120
  const ElevatorHeight: int := 100
  /** Pixels per second the car travels. */
  const ElevatorSpeed: real := 200.0
  const ElevatorMaxCapacity: nat := 6
  const NpcHeight: int := 40
  const NpcSpeed: real := 50.0
  /** Seconds between generic spawns before chaos shortens the interval. */
  const NpcSpawnRate: real := 3.0

  const LowestFloor: int := -1
  const HighestFloor: int := 17
  /** The floor number the building skips. */
  const MissingFloor: int := 13

  /** The floors of the tower: the keys of the floor table, -1 .. 12 and 14 .. 17. */
  predicate ValidFloor(f: int) {
    LowestFloor <= f <= HighestFloor && f != MissingFloor
  }

  /** The floor table's keys in their declaration order. */
  const FloorNumbers: seq<int> := [-1, 0, 1, 2, 3, 4, 5, 6, 7, 8, 9, 10, 11, 12, 14, 15, 16, 17]

  /** Where a floor of the tower stands in the floor table. */
  lemma IndexOfFloor(f: int) returns (j: nat)
    requires ValidFloor(f)
    ensures j < |FloorNumbers| && FloorNumbers[j] == f
  {
    j := if f < 13 then f + 1 else f;
  }

  lemma {:induction false} FloorNumbersAreTheValidFloors()
    ensures forall f :: f in FloorNumbers <==> ValidFloor(f)
    ensures forall i, j :: 0 <= i < j < |FloorNumbers| ==> FloorNumbers[i] < FloorNumbers[j]
  {
    forall f | ValidFloor(f) ensures f in FloorNumbers {
      var i := if f < 13 then f + 1 else f;
      assert FloorNumbers[i] == f;
    }
  }
}
