/**
 * The named residents of the tower and the factory that picks one for a
 * floor: each has a home floor, a list of favourite destinations and a fixed
 * patience.
 */
module SpecialNpcs {
  import opened Constants
  import opened Wrappers
  import opened Npcs

  datatype Character = John | Xeno | Vitalia | Vitaly | Xenia | Scott | Tony | Cindy | Laurence

  function Name(c: Character): string {
    match c
    case John => "John"
    case Xeno => "Xeno"
    case Vitalia => "Vitalia"
    case Vitaly => "Vitaly"
    case Xenia => "Xenia"
    case Scott => "Scott"
    case Tony => "Tony"
    case Cindy => "Cindy"
    case Laurence => "Laurence"
  }

  /** The list each subclass constructor draws its destination from. */
  function Destinations(c: Character): seq<int> {
    match c
    case John => [1, 2, 3]
    case Xeno => [14, 15, 17]
    case Vitalia => [11, 8, 5]
    case Vitaly => [5, 7, 2]
    case Xenia => [6, 2, 16]
    case Scott => [2, 16, 17]
    case Tony => [4, 8, 9]
    case Cindy => [4, 9, 10]
    case Laurence => [10, 8, 12]
  }

  function Patience(c: Character): real {
    match c
    case John => 999.0
    case Xeno => 120.0
    case Vitalia => 90.0
    case Vitaly => 80.0
    case Xenia => 100.0
    case Scott => 75.0
    case Tony => 85.0
    case Cindy => 90.0
    case Laurence => 100.0
  }

  /**
   * `create_special_npc`'s table: the character built for a floor and the
   * home floor it is given, or None. `pick` resolves the two floors whose
   * entry is a `random.choice` between two characters.
   */
  function SpecialFor(floorNum: int, pick: nat): Option<(Character, int)> {
    match floorNum
    case 0 => Some((John, 0))
    case 2 => Some((Xeno, 2))
    case 3 => Some((Vitalia, 3))
    case 4 => Some((if pick % 2 == 0 then Vitaly else Xenia, 4))
    case 6 => Some((Scott, 6))
    case 7 => Some((if pick % 2 == 0 then Tony else Cindy, 7))
    case 11 => Some((Laurence, 11))
    case 16 => Some((Xeno, 16))
    case _ => None
  }

  /** Exactly eight floors have a special NPC, and it always lives on the floor it is made for. */
  lemma {:induction false} SpecialFloors(floorNum: int, pick: nat)
    ensures SpecialFor(floorNum, pick).Some? <==> floorNum in {0, 2, 3, 4, 6, 7, 11, 16}
    ensures SpecialFor(floorNum, pick).Some? ==> SpecialFor(floorNum, pick).value.1 == floorNum
  {
  }

  /** Floor 4 yields Vitaly or Xenia and floor 7 Tony or Cindy, each for some draw. */
  lemma {:induction false} SharedFloorsOfferBoth()
    ensures SpecialFor(4, 0).value.0 == Vitaly && SpecialFor(4, 1).value.0 == Xenia
    ensures SpecialFor(7, 0).value.0 == Tony && SpecialFor(7, 1).value.0 == Cindy
    ensures forall p: nat :: SpecialFor(4, p).value.0 in {Vitaly, Xenia} && SpecialFor(7, p).value.0 in {Tony, Cindy}
  {
  }

  /**
   * Whatever the factory builds heads for a floor of the tower (never 13)
   * other than its home.
   */
  lemma {:induction false} SpecialDestinationsLeaveHome(floorNum: int, pick: nat, d: int)
    requires SpecialFor(floorNum, pick).Some?
    requires d in Destinations(SpecialFor(floorNum, pick).value.0)
    ensures ValidFloor(d) && d != floorNum
  {
  }

  /**
   * `create_special_npc`: builds the floor's special NPC, a `SpecialNPC` of
   * type "special" whose home and current floor are the floor it is made
   * for, or returns null. `destPick` stands for the subclass's destination
   * draw; `basePick` and `baseDraw` for the draws `NPC.__init__` makes before
   * the subclass overrides them.
   */
  method CreateSpecialNpc(floorNum: int, y: real, pick: nat, destPick: nat, basePick: nat, baseDraw: real)
    returns (npc: Npc?)
    requires 10.0 <= baseDraw <= 30.0
    ensures npc == null <==> SpecialFor(floorNum, pick).None?
    ensures npc != null ==> fresh(npc) && npc.Valid()
    ensures npc != null ==>
      var c := SpecialFor(floorNum, pick).value.0;
      && npc.kind == SpecialNpc && npc.npcType == Special && npc.name == Name(c)
      && npc.homeFloor == floorNum && npc.currentFloor == floorNum
      && npc.destinationFloor == Destinations(c)[destPick % 3]
      && npc.patience == Patience(c)
      && npc.waiting && !npc.inElevator && npc.mood == NeutralMood
  {
    match SpecialFor(floorNum, pick)
    case None =>
      npc := null;
    case Some((c, home)) =>
      var n := new Npc(SpecialNpc, Special, y, basePick, baseDraw, 0.0);
      n.name := Name(c);
      n.homeFloor := home;
      n.currentFloor := home;
      n.destinationFloor := Destinations(c)[destPick % |Destinations(c)|];
      n.patience := Patience(c);
      npc := n;
  }
}
