/**
 * The hackathon on floor 2: for thirty seconds a hacker joins the floor's
 * queue every half second, the excitement meter decays, and ten seconds
 * after the rush the event ends. The random rolls are parameters.
 */
module Hackathons {
  import opened Constants
  import opened Npcs
  import opened Floors

  const HackathonDuration: real := 30.0
  /** Seconds between two hackers. */
  const HackerSpawnRate: real := 0.5
  /** The per-tick chance that a quiet tower starts a hackathon. */
  const HackathonChance: real := 0.0002
  /** The event lingers this long after the rush before it ends. */
  const HackathonAftermath: real := 10.0
  const HackerFloor: int := 2
  const MessageCount: nat := 5
  /** Seconds each announcement stays up. */
  const MessageTime: real := 1.5
  /** More hackers than this bring the meta moment. */
  const MetaThreshold: nat := 20
  const MetaTime: real := 10.0
  const MaxExcitement: real := 100.0

  /** Where a hacker may want to go: every floor of the tower but floor 2. */
  const HackerDestinations: seq<int> := [-1, 0, 1, 3, 4, 5, 6, 7, 8, 9, 10, 11, 12, 14, 15, 16, 17]

  const EliteNames: seq<string> := ["CoffeeDev", "BugHunter", "CodeNinja", "StackOverflower", "GitMaster", "ReactLord"]

  /** A hacker's destination is a floor of the tower other than the hackathon's own, and every such floor can be drawn. */
  lemma {:induction false} HackerDestinationsAreTheOtherFloors()
    ensures forall d :: d in HackerDestinations <==> ValidFloor(d) && d != HackerFloor
  {
    forall d | ValidFloor(d) && d != HackerFloor ensures d in HackerDestinations {
      var i := if d < HackerFloor then d + 1 else if d < MissingFloor then d else d - 1;
      assert HackerDestinations[i] == d;
    }
  }

  /** The state of a `HackathonEvent` that the game logic reads (the flash and messages are timers only). */
  datatype Hackathon = Hackathon(
    active: bool,
    timer: real,
    spawnTimer: real,
    totalHackers: nat,
    hackersDelivered: nat,
    announcementTimer: real,
    flashTimer: real,
    excitementLevel: real,
    currentMessage: nat,
    messageTimer: real,
    showMeta: bool,
    metaTimer: real)

  /** The event's invariant: the meter is within 0..100 and the announcement index is one of the five. */
  predicate Coherent(h: Hackathon) {
    0.0 <= h.excitementLevel <= MaxExcitement && h.currentMessage < MessageCount
  }

  /** `trigger`. */
  function Triggered(h: Hackathon): (r: Hackathon)
    ensures Coherent(h) ==> Coherent(r)
  {
    h.(active := true, timer := 0.0, announcementTimer := 5.0, flashTimer := 1.0, excitementLevel := MaxExcitement,
       totalHackers := 0, hackersDelivered := 0)
  }

  function Min(a: real, b: real): real { if a < b then a else b }
  function Max(a: real, b: real): real { if a < b then b else a }

  /** The announcement step of `update`: while the announcement runs, the message changes every 1.5 s. */
  function Announce(h: Hackathon, dt: real): Hackathon {
    if h.announcementTimer > 0.0 then
      var m := h.messageTimer + dt;
      if m > MessageTime then
        h.(announcementTimer := h.announcementTimer - dt, messageTimer := 0.0,
           currentMessage := (h.currentMessage + 1) % MessageCount)
      else h.(announcementTimer := h.announcementTimer - dt, messageTimer := m)
    else h
  }

  /** Whether this tick's `update` calls `_spawn_hacker`: during the rush, once half a second has built up. */
  predicate SpawnDue(h: Hackathon, dt: real) {
    h.timer + dt < HackathonDuration && h.spawnTimer + dt > HackerSpawnRate
  }

  /** The spawn step's counters; a hacker is only made when floor 2 exists. */
  function Spawning(h: Hackathon, dt: real, floorTwo: bool): Hackathon {
    if h.timer < HackathonDuration then
      var st := h.spawnTimer + dt;
      if st > HackerSpawnRate then
        if floorTwo then
          h.(spawnTimer := 0.0, totalHackers := h.totalHackers + 1, excitementLevel := Min(MaxExcitement, h.excitementLevel + 10.0))
        else h.(spawnTimer := 0.0)
      else h.(spawnTimer := st)
    else h
  }

  /** The rest of `update`: the meta moment, the timers, the meter's decay and the end of the event. */
  function Aftermath(h: Hackathon, dt: real): Hackathon {
    var h1 := if h.totalHackers > MetaThreshold && !h.showMeta then h.(showMeta := true, metaTimer := MetaTime) else h;
    var h2 := if h1.metaTimer > 0.0 then h1.(metaTimer := h1.metaTimer - dt) else h1;
    var h3 := if h2.flashTimer > 0.0 then h2.(flashTimer := h2.flashTimer - dt) else h2;
    var h4 := h3.(excitementLevel := Max(0.0, h3.excitementLevel - dt * 10.0));
    if h4.timer > HackathonDuration + HackathonAftermath then h4.(active := false) else h4
  }

  /** `update` for an active hackathon; `floorTwo` says whether the tower has a floor 2. */
  function Advance(h: Hackathon, dt: real, floorTwo: bool): Hackathon {
    Aftermath(Rush(h, dt, floorTwo), dt)
  }

  /** The first half of `update` for an active hackathon: the clock, the announcement and the spawn. */
  function Rush(h: Hackathon, dt: real, floorTwo: bool): Hackathon {
    Spawning(Announce(h.(timer := h.timer + dt), dt), dt, floorTwo)
  }

  /** A tick keeps the meter within 0..100 and the message index valid. */
  lemma AdvanceKeepsCoherent(h: Hackathon, dt: real, floorTwo: bool)
    requires Coherent(h) && dt >= 0.0
    ensures Coherent(Advance(h, dt, floorTwo))
  {
  }

  /**
   * At most one hacker per tick, exactly when one is due and floor 2
   * exists; and none once the thirty seconds are over.
   */
  lemma AtMostOneHackerPerTick(h: Hackathon, dt: real, floorTwo: bool)
    ensures var r := Advance(h, dt, floorTwo);
      r.totalHackers == if SpawnDue(h, dt) && floorTwo then h.totalHackers + 1 else h.totalHackers
    ensures h.timer + dt >= HackathonDuration ==> Advance(h, dt, floorTwo).totalHackers == h.totalHackers
  {
  }

  /** The event ends exactly when its clock passes forty seconds. */
  lemma EndsAfterTheAftermath(h: Hackathon, dt: real, floorTwo: bool)
    requires h.active
    ensures Advance(h, dt, floorTwo).active <==> h.timer + dt <= HackathonDuration + HackathonAftermath
    ensures Advance(h, dt, floorTwo).timer == h.timer + dt
  {
  }

  /** More than twenty hackers always bring the meta moment. */
  lemma MetaFollowsTheCrowd(h: Hackathon, dt: real, floorTwo: bool)
    ensures Advance(h, dt, floorTwo).totalHackers > MetaThreshold ==> Advance(h, dt, floorTwo).showMeta
    ensures h.showMeta ==> Advance(h, dt, floorTwo).showMeta
  {
  }

  /** `check_elevator_at_floor_2`: the car is on floor 2 while the rush is on. */
  function ElevatorAtFloorTwo(h: Hackathon, currentFloor: int): (r: bool)
    ensures r ==> h.active && h.timer < HackathonDuration
  {
    h.active && currentFloor == HackerFloor && h.timer < HackathonDuration
  }

  /**
   * Once the rush is over it is over for good: no later tick brings the
   * car's floor-2 bonus back, and no later tick spawns a hacker.
   */
  lemma {:induction false} RushIsOverForGood(h: Hackathon, dt: real, floorTwo: bool, currentFloor: int)
    requires h.timer >= HackathonDuration && dt >= 0.0
    ensures Advance(h, dt, floorTwo).timer >= HackathonDuration
    ensures !ElevatorAtFloorTwo(Advance(h, dt, floorTwo), currentFloor)
    ensures !SpawnDue(Advance(h, dt, floorTwo), dt)
  {
    assert Advance(h, dt, floorTwo).timer == h.timer + dt;
  }

  /** A hacker's name: "Hacker" and its number, or on a roll below 0.1 one of the elite names. */
  function HackerName(number: nat, eliteDraw: real, elitePick: nat): string {
    if eliteDraw < 0.1 then EliteNames[elitePick % |EliteNames|] else "Hacker" + NatToString(number)
  }

  /** The fields `_spawn_hacker` sets on the neutral NPC it creates. */
  ghost predicate BuiltAsHacker(n: Npc, number: nat, floorY: int, destPick: nat, patienceDraw: real, eliteDraw: real, elitePick: nat)
    reads n
  {
    && n.Valid() && n.kind == PlainNpc && n.npcType == Neutral
    && n.name == HackerName(number, eliteDraw, elitePick)
    && n.currentFloor == HackerFloor && n.y == (floorY - NpcHeight) as real
    && n.destinationFloor == HackerDestinations[destPick % |HackerDestinations|]
    && n.patience == patienceDraw && n.waiting && !n.inElevator
  }

  /** The hacker NPC itself; the draws of the `NPC` constructor are overwritten. */
  method BuildHacker(number: nat, floorY: int, destPick: nat, patienceDraw: real, eliteDraw: real, elitePick: nat)
      returns (npc: Npc)
    requires 15.0 <= patienceDraw <= 25.0
    ensures fresh(npc) && BuiltAsHacker(npc, number, floorY, destPick, patienceDraw, eliteDraw, elitePick)
    ensures HackerDestinations[destPick % |HackerDestinations|] != HackerFloor
  {
    var name := "Hacker" + NatToString(number);
    if eliteDraw < 0.1 {
      name := EliteNames[elitePick % |EliteNames|];
    }
    var destination := HackerDestinations[destPick % |HackerDestinations|];
    DrawnDestinationIsAnotherFloor(destPick);
    npc := new Npc(PlainNpc, Neutral, (floorY - NpcHeight) as real, destPick, patienceDraw, 0.0);
    npc.name := name;
    npc.currentFloor := HackerFloor;
    npc.destinationFloor := destination;
    npc.patience := patienceDraw;
  }

  /** The destination drawn for a hacker is never the hackathon's floor. */
  lemma DrawnDestinationIsAnotherFloor(destPick: nat)
    ensures HackerDestinations[destPick % |HackerDestinations|] != HackerFloor
  {
    HackerDestinationsAreTheOtherFloors();
    assert HackerDestinations[destPick % |HackerDestinations|] in HackerDestinations;
  }

  class HackathonEvent {
    var active: bool
    var timer: real
    var spawnTimer: real
    var totalHackers: nat
    var hackersDelivered: nat
    var announcementTimer: real
    var flashTimer: real
    var excitementLevel: real
    var currentMessage: nat
    var messageTimer: real
    var showMeta: bool
    var metaTimer: real

    function State(): Hackathon
      reads this
    {
      Hackathon(active, timer, spawnTimer, totalHackers, hackersDelivered, announcementTimer, flashTimer,
                excitementLevel, currentMessage, messageTimer, showMeta, metaTimer)
    }

    predicate Valid()
      reads this
    {
      Coherent(State())
    }

    /** `__init__`: a quiet event. */
    constructor ()
      ensures Valid() && !active && timer == 0.0 && totalHackers == 0 && excitementLevel == 0.0 && currentMessage == 0
    {
      active, timer, spawnTimer := false, 0.0, 0.0;
      totalHackers, hackersDelivered := 0, 0;
      announcementTimer, flashTimer, excitementLevel := 0.0, 0.0, 0.0;
      currentMessage, messageTimer := 0, 0.0;
      showMeta, metaTimer := false, 0.0;
    }

    /** `trigger`. */
    method Trigger()
      requires Valid()
      modifies this
      ensures Valid() && State() == Triggered(old(State()))
    {
      active := true;
      timer := 0.0;
      announcementTimer := 5.0;
      flashTimer := 1.0;
      excitementLevel := MaxExcitement;
      totalHackers := 0;
      hackersDelivered := 0;
    }

    /**
     * `_spawn_hacker`: without a floor 2 nothing happens; otherwise a new
     * hacker joins the NPC list and, room permitting, floor 2's queue, and
     * the counters go up.
     */
    method SpawnHacker(npcs: seq<Npc>, floors: map<int, Floor>, destPick: nat, patienceDraw: real, eliteDraw: real, elitePick: nat)
        returns (npcs': seq<Npc>, hacker: Npc?)
      requires HackerFloor in floors ==> floors[HackerFloor].Valid()
      requires 15.0 <= patienceDraw <= 25.0
      modifies this`totalHackers, this`excitementLevel, if HackerFloor in floors then {floors[HackerFloor]} else {}
      ensures HackerFloor !in floors ==>
        hacker == null && npcs' == npcs && totalHackers == old(totalHackers) && excitementLevel == old(excitementLevel)
      ensures HackerFloor in floors ==>
        && hacker != null && fresh(hacker) && npcs' == npcs + [hacker]
        && BuiltAsHacker(hacker, old(totalHackers), floors[HackerFloor].y, destPick, patienceDraw, eliteDraw, elitePick)
        && floors[HackerFloor].Valid()
        && floors[HackerFloor].waiting == Queued(old(floors[HackerFloor].waiting), hacker)
        && totalHackers == old(totalHackers) + 1
        && excitementLevel == Min(MaxExcitement, old(excitementLevel) + 10.0)
    {
      if HackerFloor !in floors {
        return npcs, null;
      }
      var floor := floors[HackerFloor];
      hacker := BuildHacker(totalHackers, floor.y, destPick, patienceDraw, eliteDraw, elitePick);
      npcs' := npcs + [hacker];
      var queued := floor.AddWaitingNpc(hacker);
      totalHackers := totalHackers + 1;
      excitementLevel := Min(MaxExcitement, excitementLevel + 10.0);
    }

    /**
     * `HackathonEvent.update`. A quiet tower starts a hackathon when the
     * roll `draw` is below 0.0002. An active one follows `Advance`, and the
     * hacker it spawns, if any, is the last of the returned NPC list.
     */
    method Update(dt: real, draw: real, npcs: seq<Npc>, floors: map<int, Floor>,
                  destPick: nat, patienceDraw: real, eliteDraw: real, elitePick: nat)
        returns (npcs': seq<Npc>, hacker: Npc?)
      requires Valid() && dt >= 0.0
      requires HackerFloor in floors ==> floors[HackerFloor].Valid()
      requires 15.0 <= patienceDraw <= 25.0
      modifies this, if HackerFloor in floors then {floors[HackerFloor]} else {}
      ensures Valid()
      ensures !old(active) ==>
        State() == (if draw < HackathonChance then Triggered(old(State())) else old(State())) &&
        hacker == null && npcs' == npcs
      ensures old(active) ==> State() == Advance(old(State()), dt, HackerFloor in floors)
      ensures !(old(active) && SpawnDue(old(State()), dt) && HackerFloor in floors) ==> hacker == null && npcs' == npcs
      ensures old(active) && SpawnDue(old(State()), dt) && HackerFloor in floors ==>
        && hacker != null && fresh(hacker) && npcs' == npcs + [hacker]
        && BuiltAsHacker(hacker, old(totalHackers), floors[HackerFloor].y, destPick, patienceDraw, eliteDraw, elitePick)
        && floors[HackerFloor].waiting == Queued(old(floors[HackerFloor].waiting), hacker)
      ensures HackerFloor in floors ==> floors[HackerFloor].Valid()
    {
      if !active {
        npcs', hacker := npcs, null;
        if draw < HackathonChance {
          Trigger();
        }
      } else {
        npcs', hacker := Tick(dt, npcs, floors, destPick, patienceDraw, eliteDraw, elitePick);
      }
    }

    /** The body of `update` for an active hackathon. */
    method Tick(dt: real, npcs: seq<Npc>, floors: map<int, Floor>,
                destPick: nat, patienceDraw: real, eliteDraw: real, elitePick: nat)
        returns (npcs': seq<Npc>, hacker: Npc?)
      requires Valid() && active && dt >= 0.0
      requires HackerFloor in floors ==> floors[HackerFloor].Valid()
      requires 15.0 <= patienceDraw <= 25.0
      modifies this, if HackerFloor in floors then {floors[HackerFloor]} else {}
      ensures Valid()
      ensures State() == Advance(old(State()), dt, HackerFloor in floors)
      ensures if SpawnDue(old(State()), dt) && HackerFloor in floors then
          && hacker != null && fresh(hacker) && npcs' == npcs + [hacker]
          && BuiltAsHacker(hacker, old(totalHackers), floors[HackerFloor].y, destPick, patienceDraw, eliteDraw, elitePick)
          && floors[HackerFloor].waiting == Queued(old(floors[HackerFloor].waiting), hacker)
        else hacker == null && npcs' == npcs
      ensures HackerFloor in floors ==> floors[HackerFloor].Valid()
    {
      ghost var before := State();
      AdvanceKeepsCoherent(before, dt, HackerFloor in floors);
      npcs', hacker := RushStep(dt, npcs, floors, destPick, patienceDraw, eliteDraw, elitePick);
      AftermathStep(dt);
    }

    /** The clock, the announcement and the spawn parts of `update`. */
    method RushStep(dt: real, npcs: seq<Npc>, floors: map<int, Floor>,
                    destPick: nat, patienceDraw: real, eliteDraw: real, elitePick: nat)
        returns (npcs': seq<Npc>, hacker: Npc?)
      requires HackerFloor in floors ==> floors[HackerFloor].Valid()
      requires 15.0 <= patienceDraw <= 25.0
      modifies this`timer, this`announcementTimer, this`messageTimer, this`currentMessage
      modifies this`spawnTimer, this`totalHackers, this`excitementLevel, if HackerFloor in floors then {floors[HackerFloor]} else {}
      ensures State() == Rush(old(State()), dt, HackerFloor in floors)
      ensures if SpawnDue(old(State()), dt) && HackerFloor in floors then
          && hacker != null && fresh(hacker) && npcs' == npcs + [hacker]
          && BuiltAsHacker(hacker, old(totalHackers), floors[HackerFloor].y, destPick, patienceDraw, eliteDraw, elitePick)
          && floors[HackerFloor].waiting == Queued(old(floors[HackerFloor].waiting), hacker)
        else hacker == null && npcs' == npcs
      ensures HackerFloor in floors ==> floors[HackerFloor].Valid()
    {
      ghost var start := State();
      timer := timer + dt;
      assert State() == start.(timer := start.timer + dt);
      AnnounceStep(dt);
      ghost var announced := State();
      npcs', hacker := SpawnStep(dt, npcs, floors, destPick, patienceDraw, eliteDraw, elitePick);
      assert State() == Spawning(announced, dt, HackerFloor in floors);
    }

    /** The announcement part of `update`. */
    method AnnounceStep(dt: real)
      modifies this`announcementTimer, this`messageTimer, this`currentMessage
      ensures State() == Announce(old(State()), dt)
    {
      if announcementTimer > 0.0 {
        announcementTimer := announcementTimer - dt;
        messageTimer := messageTimer + dt;
        if messageTimer > MessageTime {
          messageTimer := 0.0;
          currentMessage := (currentMessage + 1) % MessageCount;
        }
      }
    }

    /** The spawn part of `update`: during the rush, a hacker every half second. */
    method SpawnStep(dt: real, npcs: seq<Npc>, floors: map<int, Floor>,
                     destPick: nat, patienceDraw: real, eliteDraw: real, elitePick: nat)
        returns (npcs': seq<Npc>, hacker: Npc?)
      requires HackerFloor in floors ==> floors[HackerFloor].Valid()
      requires 15.0 <= patienceDraw <= 25.0
      modifies this`spawnTimer, this`totalHackers, this`excitementLevel, if HackerFloor in floors then {floors[HackerFloor]} else {}
      ensures State() == Spawning(old(State()), dt, HackerFloor in floors)
      ensures var due := old(timer) < HackathonDuration && old(spawnTimer) + dt > HackerSpawnRate;
        if due && HackerFloor in floors then
          && hacker != null && fresh(hacker) && npcs' == npcs + [hacker]
          && BuiltAsHacker(hacker, old(totalHackers), floors[HackerFloor].y, destPick, patienceDraw, eliteDraw, elitePick)
          && floors[HackerFloor].waiting == Queued(old(floors[HackerFloor].waiting), hacker)
        else hacker == null && npcs' == npcs
      ensures HackerFloor in floors ==> floors[HackerFloor].Valid()
    {
      npcs', hacker := npcs, null;
      if timer < HackathonDuration {
        spawnTimer := spawnTimer + dt;
        if spawnTimer > HackerSpawnRate {
          spawnTimer := 0.0;
          npcs', hacker := SpawnHacker(npcs, floors, destPick, patienceDraw, eliteDraw, elitePick);
        }
      }
    }

    /** The rest of `update`: the meta moment, the effect timers, the meter's decay and the end of the event. */
    method AftermathStep(dt: real)
      modifies this`showMeta, this`metaTimer, this`flashTimer, this`excitementLevel, this`active
      ensures State() == Aftermath(old(State()), dt)
    {
      if totalHackers > MetaThreshold && !showMeta {
        showMeta := true;
        metaTimer := MetaTime;
      }
      if metaTimer > 0.0 {
        metaTimer := metaTimer - dt;
      }
      if flashTimer > 0.0 {
        flashTimer := flashTimer - dt;
      }
      excitementLevel := Max(0.0, excitementLevel - dt * 10.0);
      if timer > HackathonDuration + HackathonAftermath {
        active := false;
      }
    }
  }
}
