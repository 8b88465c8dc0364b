/**
 * A floor of the tower: its record in the floor table, its theme flags and
 * the queue of NPCs waiting for the elevator there.
 */
module Floors {
  import opened Constants
  import opened Seqs
  import opened Wrappers
  import opened Npcs

  /** A floor holds at most this many waiting NPCs (`max_waiting`). */
  const MaxWaiting: nat := 8

  datatype Theme = EvilTheme | NeutralTheme | GoodTheme | PartyTheme

  /** The part of a floor record the game logic uses: its name and theme. */
  datatype FloorData = FloorData(name: string, theme: Theme)

  /** The floor table: one record per floor of the tower. */
  function FloorTable(n: int): Option<FloorData> {
    match n
    case -1 => Some(FloorData("Basement - Robot Fight Club", EvilTheme))
    case 0 => Some(FloorData("Street Level", NeutralTheme))
    case 1 => Some(FloorData("Floor 1 - Lobby", NeutralTheme))
    case 2 => Some(FloorData("Floor 2 - The Spaceship", NeutralTheme))
    case 3 => Some(FloorData("Floor 3 - Private Offices", NeutralTheme))
    case 4 => Some(FloorData("Floor 4 - Robotics Lab", GoodTheme))
    case 5 => Some(FloorData("Floor 5 - Gym/Movement", NeutralTheme))
    case 6 => Some(FloorData("Floor 6 - Arts & Music", NeutralTheme))
    case 7 => Some(FloorData("Floor 7 - Maker Space", NeutralTheme))
    case 8 => Some(FloorData("Floor 8 - Biotech Labs", NeutralTheme))
    case 9 => Some(FloorData("Floor 9 - AI & Autonomous Systems", NeutralTheme))
    case 10 => Some(FloorData("Floor 10 - VCs & Accelerator", NeutralTheme))
    case 11 => Some(FloorData("Floor 11 - Health & Longevity", NeutralTheme))
    case 12 => Some(FloorData("Floor 12 - Crypto/DeFi", NeutralTheme))
    case 14 => Some(FloorData("Floor 14 - Human Flourishing", NeutralTheme))
    case 15 => Some(FloorData("Floor 15 - Coworking & Library", NeutralTheme))
    case 16 => Some(FloorData("Floor 16 - d/acc Lounge", NeutralTheme))
    case 17 => Some(FloorData("Roof - Secret Rave", PartyTheme))
    case _ => None
  }

  /** The floor table has a record for exactly the floors of the tower. */
  lemma {:induction false} FloorTableKeys(n: int)
    ensures FloorTable(n).Some? <==> ValidFloor(n)
  {
  }

  /** Decimal digits of a natural number, as Python's `str` writes them. */
  function NatToString(n: nat): string
    decreases n
  {
    if n < 10 then ["0123456789"[n]]
    else NatToString(n / 10) + ["0123456789"[n % 10]]
  }

  /** Python's `str` of an integer. */
  function IntToString(i: int): string {
    if i < 0 then "-" + NatToString(-i) else NatToString(i)
  }

  /** `FLOORS.get(n, default)`: the table's record, or "Floor n" with a neutral theme. */
  function FloorDataOf(n: int): FloorData {
    match FloorTable(n)
    case Some(record) => record
    case None => FloorData("Floor " + IntToString(n), NeutralTheme)
  }

  /** Only the fight club is evil, only the robotics lab good, only the roof a party. */
  lemma {:induction false} ThemesOfTheTower(n: int)
    requires ValidFloor(n)
    ensures FloorDataOf(n).theme == EvilTheme <==> n == -1
    ensures FloorDataOf(n).theme == GoodTheme <==> n == 4
    ensures FloorDataOf(n).theme == PartyTheme <==> n == 17
  {
  }

  /** The `is_*` attributes a floor sets from its number. */
  datatype FloorFlags = FloorFlags(
    isGoodRobotLab: bool, isEvilFightClub: bool, isStreetLevel: bool, isRoofRave: bool,
    isEventSpace: bool, isGym: bool, isArtsMusic: bool, isBiotech: bool,
    isAiLab: bool, isVcFloor: bool, isCrypto: bool, isDaccLounge: bool)

  function FlagsOf(n: int): FloorFlags {
    FloorFlags(n == 4, n == -1, n == 0, n == 17, n == 2, n == 5, n == 6, n == 8, n == 9, n == 10, n == 12, n == 16)
  }

  function B(b: bool): nat { if b then 1 else 0 }

  function FlagCount(f: FloorFlags): nat {
    B(f.isGoodRobotLab) + B(f.isEvilFightClub) + B(f.isStreetLevel) + B(f.isRoofRave) +
    B(f.isEventSpace) + B(f.isGym) + B(f.isArtsMusic) + B(f.isBiotech) +
    B(f.isAiLab) + B(f.isVcFloor) + B(f.isCrypto) + B(f.isDaccLounge)
  }

  /** A floor has at most one special role, and the twelve special floors have exactly one. */
  lemma {:induction false} AtMostOneRole(n: int)
    ensures FlagCount(FlagsOf(n)) <= 1
    ensures FlagCount(FlagsOf(n)) == 1 <==> n in {4, -1, 0, 17, 2, 5, 6, 8, 9, 10, 12, 16}
  {
  }

  /** The NPCs of `s` whose patience would still be positive after losing `dt`. */
  function PatientAfter(s: seq<Npc>, dt: real): set<Npc>
    reads s
  {
    set n | n in s && n.patience - dt > 0.0
  }

  /** The patience of each NPC of `s`, in order. */
  function Patiences(s: seq<Npc>): (r: seq<real>)
    reads s
    ensures |r| == |s| && forall k :: 0 <= k < |s| ==> r[k] == s[k].patience
  {
    seq(|s|, k requires 0 <= k < |s| reads s => s[k].patience)
  }

  /**
   * The loop of `Floor.update` over a copy of the queue: each NPC loses `dt`
   * of patience and, left with none, is removed from the list, which ends
   * as the NPCs of `keep` in queue order.
   */
  method LosePatience(queue: seq<Npc>, dt: real, ghost keep: set<Npc>, ghost before: seq<real>) returns (remaining: seq<Npc>)
    requires NoDuplicates(queue) && |before| == |queue| && forall k :: 0 <= k < |queue| ==> before[k] == queue[k].patience
    requires forall k :: 0 <= k < |queue| ==> (queue[k] in keep <==> before[k] - dt > 0.0)
    modifies queue`patience
    ensures remaining == Filter(queue, keep)
    ensures forall k :: 0 <= k < |queue| ==> queue[k].patience == before[k] - dt
  {
    remaining := queue;
    var i := 0;
    while i < |queue|
      invariant 0 <= i <= |queue|
      invariant remaining == FilterPrefix(queue, keep, i) + queue[i..]
      invariant forall k :: 0 <= k < i ==> queue[k].patience == before[k] - dt
      invariant forall k :: i <= k < |queue| ==> queue[k].patience == before[k]
    {
      var npc := queue[i];
      FilterScanStep(queue, keep, i, remaining);
      label L:
      npc.patience := npc.patience - dt;
      forall k | 0 <= k < |queue| && k != i
        ensures queue[k].patience == old@L(queue[k].patience)
      {
        assert queue[k] != npc;
      }
      if npc.patience <= 0.0 {
        remaining := RemoveFirst(remaining, npc);
      }
      i := i + 1;
    }
  }

  /** A queue after `add_waiting_npc(npc)`: joined at the back, unless eight already wait. */
  function Queued(q: seq<Npc>, npc: Npc): (r: seq<Npc>)
    ensures |q| <= MaxWaiting ==> |r| <= MaxWaiting
    ensures npc in r <==> npc in q || |q| < MaxWaiting
    ensures NoDuplicates(q) && npc !in q ==> NoDuplicates(r)
  {
    if |q| < MaxWaiting then q + [npc] else q
  }

  class Floor {
    const floorNumber: int
    const y: int
    const data: FloorData
    const flags: FloorFlags
    var waiting: seq<Npc>

    predicate Valid()
      reads this
    {
      |waiting| <= MaxWaiting
    }

    /** `Floor.__init__`: the floor's record and flags, and an empty queue. */
    constructor (n: int, y: int)
      ensures Valid()
      ensures floorNumber == n && this.y == y && data == FloorDataOf(n) && flags == FlagsOf(n)
      ensures waiting == []
    {
      floorNumber := n;
      this.y := y;
      data := FloorDataOf(n);
      flags := FlagsOf(n);
      waiting := [];
    }

    /**
     * The queue part of `Floor.update`: every waiting NPC loses `dt` of
     * patience, and those left with none are dropped; the rest keep their
     * order.
     */
    method Update(dt: real)
      requires Valid() && NoDuplicates(waiting)
      modifies this`waiting, waiting`patience
      ensures Valid() && NoDuplicates(waiting)
      ensures forall n :: n in old(waiting) ==> n.patience == old(n.patience) - dt
      ensures waiting == Filter(old(waiting), old(PatientAfter(waiting, dt)))
    {
      var queue := waiting;
      ghost var keep := PatientAfter(queue, dt);
      ghost var before := Patiences(queue);
      var remaining := LosePatience(queue, dt, keep, before);
      forall n | n in queue
        ensures n.patience == old(n.patience) - dt
      {
        var k :| 0 <= k < |queue| && queue[k] == n;
        assert before[k] == old(queue[k].patience);
      }
      FilterKeepsExactly(queue, keep);
      waiting := remaining;
    }

    /** `add_waiting_npc`: joins the back of the queue only while fewer than eight wait. */
    method AddWaitingNpc(npc: Npc) returns (added: bool)
      requires Valid()
      modifies this`waiting
      ensures Valid()
      ensures added <==> |old(waiting)| < MaxWaiting
      ensures waiting == if added then old(waiting) + [npc] else old(waiting)
    {
      if |waiting| < MaxWaiting {
        waiting := waiting + [npc];
        return true;
      }
      return false;
    }

    /** `remove_waiting_npc`: leaves the queue if it is in it; the others keep their places. */
    method RemoveWaitingNpc(npc: Npc)
      requires Valid()
      modifies this`waiting
      ensures Valid()
      ensures waiting == RemoveFirst(old(waiting), npc)
      ensures NoDuplicates(old(waiting)) ==> NoDuplicates(waiting) && npc !in waiting
    {
      if NoDuplicates(waiting) {
        RemoveFirstKeepsNoDuplicates(waiting, npc);
      }
      if npc in waiting {
        waiting := RemoveFirst(waiting, npc);
      }
    }
  }
}
