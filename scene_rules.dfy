/**
 * The pure rules of the elevator scene: which floor the up and down
 * commands ask for, how the car reacts to a command, which type of NPC
 * spawns, and how timeouts and deliveries move the score, chaos and
 * harmony.
 */
module SceneRules {
  import opened Constants
  import opened Wrappers
  import opened Npcs

  /** The floor `_move_elevator_up` hands to `move_to_floor`, or None when it refuses. */
  function UpRequest(current: int, moving: bool, doorsOpen: bool): Option<int> {
    if current >= HighestFloor then None
    else if current == 12 then Some(14)
    else if moving || doorsOpen then None
    else Some(current + 1)
  }

  /** The floor `_move_elevator_down` hands to `move_to_floor`, or None when it refuses. */
  function DownRequest(current: int, moving: bool, doorsOpen: bool): Option<int> {
    if current <= LowestFloor then None
    else if current == 14 then Some(12)
    else if moving || doorsOpen then None
    else Some(current - 1)
  }

  /**
   * From a floor of the tower, up asks for the next floor of the tower above
   * it; it refuses only at the roof, or while moving or open except at
   * floor 12, whose jump to 14 skips both checks.
   */
  lemma {:induction false} UpRequestIsNextFloor(current: int, moving: bool, doorsOpen: bool)
    requires ValidFloor(current)
    ensures UpRequest(current, moving, doorsOpen).Some? ==>
      var f := UpRequest(current, moving, doorsOpen).value;
      ValidFloor(f) && current < f && forall g :: current < g < f ==> !ValidFloor(g)
    ensures UpRequest(current, moving, doorsOpen).None? <==>
      current == HighestFloor || (current != 12 && (moving || doorsOpen))
  {
  }

  /** The mirror image for down: the next floor of the tower below, with 14 jumping to 12. */
  lemma {:induction false} DownRequestIsNextFloor(current: int, moving: bool, doorsOpen: bool)
    requires ValidFloor(current)
    ensures DownRequest(current, moving, doorsOpen).Some? ==>
      var f := DownRequest(current, moving, doorsOpen).value;
      ValidFloor(f) && f < current && forall g :: f < g < current ==> !ValidFloor(g)
    ensures DownRequest(current, moving, doorsOpen).None? <==>
      current == LowestFloor || (current != 14 && (moving || doorsOpen))
  {
  }

  /** `_determine_npc_type` for the draw `r` of `random.random()`. */
  function DetermineNpcType(chaos: real, r: real): NpcType {
    var evilChance := 0.2 + chaos / 200.0;
    var goodChance := 0.2 + chaos / 150.0;
    if r < evilChance then Evil
    else if r < evilChance + goodChance then Good
    else Neutral
  }

  /** More chaos never turns an evil spawn into another type, nor a non-neutral one into a neutral. */
  lemma {:induction false} ChaosBreedsRobots(c1: real, c2: real, r: real)
    requires 0.0 <= c1 <= c2
    ensures DetermineNpcType(c1, r) == Evil ==> DetermineNpcType(c2, r) == Evil
    ensures DetermineNpcType(c2, r) == Neutral ==> DetermineNpcType(c1, r) == Neutral
  {
  }

  /** In a calm tower a fifth of the draws are evil and a fifth good; from chaos 60 on no neutral spawns. */
  lemma {:induction false} SpawnOdds(c: real, r: real)
    requires 0.0 <= r < 1.0
    ensures DetermineNpcType(0.0, r) == Evil <==> r < 0.2
    ensures DetermineNpcType(0.0, r) == Good <==> 0.2 <= r < 0.4
    ensures 60.0 <= c ==> DetermineNpcType(c, r) != Neutral
  {
  }

  /** `min(100, level + amount)`. */
  function Raise(level: real, amount: real): real {
    if level + amount < 100.0 then level + amount else 100.0
  }

  /** `max(0, level - amount)`. */
  function Lower(level: real, amount: real): real {
    if level - amount > 0.0 then level - amount else 0.0
  }

  /** The scene's score, delivery count, chaos level and harmony level. */
  datatype Scoreboard = Scoreboard(score: int, delivered: nat, chaos: real, harmony: real)

  predicate InRange(b: Scoreboard) {
    0.0 <= b.chaos <= 100.0 && 0.0 <= b.harmony <= 100.0
  }

  /** An NPC of type `t` gave up waiting: minus 10, a good one costs harmony and an evil one adds chaos. */
  function TimeoutPenalty(b: Scoreboard, t: NpcType): Scoreboard {
    var lost := b.(score := b.score - 10);
    if t == Good then lost.(harmony := Lower(b.harmony, 5.0))
    else if t == Evil then lost.(chaos := Raise(b.chaos, 5.0))
    else lost
  }

  /** The penalties for several NPCs that gave up, in order. */
  function TimeoutPenalties(b: Scoreboard, ts: seq<NpcType>): Scoreboard {
    if ts == [] then b else TimeoutPenalty(TimeoutPenalties(b, ts[..|ts| - 1]), ts[|ts| - 1])
  }

  /** Penalising one more NPC, or none, after a batch. */
  lemma TimeoutPenaltiesStep(b: Scoreboard, ts: seq<NpcType>, t: NpcType, timedOut: bool)
    ensures TimeoutPenalties(b, ts + (if timedOut then [t] else [])) ==
      if timedOut then TimeoutPenalty(TimeoutPenalties(b, ts), t) else TimeoutPenalties(b, ts)
  {
    if timedOut {
      assert (ts + [t])[..|ts|] == ts;
    } else {
      assert ts + [] == ts;
    }
  }

  /**
   * Timeouts cost exactly 10 points each, keep chaos and harmony in
   * [0, 100], never raise harmony or lower chaos, and touch harmony only
   * for a good NPC and chaos only for an evil one.
   */
  lemma {:induction false} TimeoutPenaltiesEffect(b: Scoreboard, ts: seq<NpcType>)
    ensures var r := TimeoutPenalties(b, ts);
      && r.score == b.score - 10 * |ts| && r.delivered == b.delivered
      && (InRange(b) ==> InRange(r) && r.harmony <= b.harmony && r.chaos >= b.chaos)
      && (Good !in ts ==> r.harmony == b.harmony)
      && (Evil !in ts ==> r.chaos == b.chaos)
  {
    if ts != [] {
      var init := ts[..|ts| - 1];
      TimeoutPenaltiesEffect(b, init);
      assert ts == init + [ts[|ts| - 1]];
    }
  }

  /** The thematic bonus of `_score_delivery`: the first matching rule only. */
  function ThematicBonus(t: NpcType, floorNum: int): int {
    if t == Good && floorNum == 4 then 20
    else if t == Evil && floorNum == -1 then 15
    else if floorNum == 17 then 30
    else if floorNum == 6 then 15
    else 0
  }

  /** What `_score_delivery` reads of an NPC's `name`: one of the three names it rewards or punishes, or another. */
  datatype Role = Doorman | Mastermind | Escapee | Anyone

  /** The names "John", "Alan" and "Escaped Robot", and every other name (or none). */
  function RoleOf(name: string): (r: Role)
    ensures r == Doorman <==> name == "John"
    ensures r == Mastermind <==> name == "Alan"
    ensures r == Escapee <==> name == "Escaped Robot"
  {
    if name == "John" then Doorman
    else if name == "Alan" then Mastermind
    else if name == "Escaped Robot" then Escapee
    else Anyone
  }

  /** Points for one delivery: 10, the thematic bonus, and the named characters' bonus or penalty. */
  function DeliveryPoints(t: NpcType, role: Role, floorNum: int): int {
    10 + ThematicBonus(t, floorNum)
    + (if role == Doorman then 50 else 0)
    + (if role == Mastermind then 75 else 0)
    + (if role == Escapee && floorNum > 0 then -20 else 0)
  }

  /**
   * A delivery scores between -10 and 115 points; it scores less than the
   * base 10 only for an escaped robot taken above the street.
   */
  lemma {:induction false} DeliveryPointsRange(t: NpcType, role: Role, floorNum: int)
    ensures -10 <= DeliveryPoints(t, role, floorNum) <= 115
    ensures DeliveryPoints(t, role, floorNum) < 10 <==> role == Escapee && floorNum > 0 && ThematicBonus(t, floorNum) < 20
  {
  }

  /** `_score_delivery` on the scoreboard: points, one more delivery, and the chaos and harmony changes. */
  function ScoreDelivery(b: Scoreboard, t: NpcType, role: Role, floorNum: int): Scoreboard {
    var themed :=
      if t == Good && floorNum == 4 then b.(harmony := Raise(b.harmony, 10.0))
      else if t == Evil && floorNum == -1 then b.(chaos := Raise(b.chaos, 5.0))
      else if floorNum == 17 then b.(harmony := Raise(b.harmony, 10.0))
      else if floorNum == 6 then b.(harmony := Raise(b.harmony, 3.0))
      else b;
    var john := if role == Doorman then themed.(harmony := Raise(themed.harmony, 20.0)) else themed;
    var alan := if role == Mastermind then john.(harmony := Raise(john.harmony, 30.0)) else john;
    var escaped := if role == Escapee && floorNum > 0 then alan.(chaos := Raise(alan.chaos, 15.0)) else alan;
    escaped.(score := b.score + DeliveryPoints(t, role, floorNum), delivered := b.delivered + 1)
  }

  /** One NPC leaving the car: its type and what its name means to the score. */
  datatype Delivery = Delivery(npcType: NpcType, role: Role)

  /** Several deliveries at one floor, scored in order. */
  function ScoreDeliveries(b: Scoreboard, ds: seq<Delivery>, floorNum: int): Scoreboard {
    ScoreFirstDeliveries(b, ds, |ds|, floorNum)
  }

  /** The first `n` deliveries of `ds`, scored in order. */
  function ScoreFirstDeliveries(b: Scoreboard, ds: seq<Delivery>, n: nat, floorNum: int): Scoreboard
    requires n <= |ds|
  {
    if n == 0 then b
    else ScoreDelivery(ScoreFirstDeliveries(b, ds, n - 1, floorNum), ds[n - 1].npcType, ds[n - 1].role, floorNum)
  }

  /**
   * Every delivery counts once, deliveries keep chaos and harmony in
   * [0, 100], and only an evil robot at the fight club or an escaped robot
   * above the street raises chaos; harmony never drops.
   */
  lemma {:induction false} ScoreDeliveriesEffect(b: Scoreboard, ds: seq<Delivery>, floorNum: int)
    ensures var r := ScoreDeliveries(b, ds, floorNum);
      && r.delivered == b.delivered + |ds|
      && (InRange(b) ==> InRange(r) && r.harmony >= b.harmony && r.chaos >= b.chaos)
      && (floorNum != -1 && (floorNum <= 0 || forall d :: d in ds ==> d.role != Escapee) ==> r.chaos == b.chaos)
  {
    ScoreFirstDeliveriesEffect(b, ds, |ds|, floorNum);
  }

  lemma {:induction false} ScoreFirstDeliveriesEffect(b: Scoreboard, ds: seq<Delivery>, n: nat, floorNum: int)
    requires n <= |ds|
    ensures var r := ScoreFirstDeliveries(b, ds, n, floorNum);
      && r.delivered == b.delivered + n
      && (InRange(b) ==> InRange(r) && r.harmony >= b.harmony && r.chaos >= b.chaos)
      && (floorNum != -1 && (floorNum <= 0 || forall k :: 0 <= k < n ==> ds[k].role != Escapee) ==> r.chaos == b.chaos)
  {
    if n > 0 {
      ScoreFirstDeliveriesEffect(b, ds, n - 1, floorNum);
    }
  }

  /** `_update_game_balance` on the scoreboard: chaos decays by 0.5 and harmony by 0.3 per second. */
  function Decay(b: Scoreboard, dt: real): Scoreboard {
    b.(chaos := Lower(b.chaos, dt * 0.5), harmony := Lower(b.harmony, dt * 0.3))
  }

  /** Decay keeps both levels in [0, 100] and never raises them. */
  lemma {:induction false} DecayStaysInRange(b: Scoreboard, dt: real)
    requires InRange(b) && dt >= 0.0
    ensures InRange(Decay(b, dt))
    ensures Decay(b, dt).chaos <= b.chaos && Decay(b, dt).harmony <= b.harmony
    ensures Decay(b, dt).score == b.score && Decay(b, dt).delivered == b.delivered
  {
  }

  /** The spawn interval set after a spawn: 3 s, shortened by chaos, never under 1 s. */
  function SpawnIntervalFor(chaos: real): real {
    var shortened := NpcSpawnRate - chaos * 0.02;
    if 1.0 > shortened then 1.0 else shortened
  }

  lemma {:induction false} SpawnIntervalRange(chaos: real)
    requires 0.0 <= chaos <= 100.0
    ensures 1.0 <= SpawnIntervalFor(chaos) <= NpcSpawnRate
    ensures chaos <= 50.0 ==> SpawnIntervalFor(chaos) == NpcSpawnRate - chaos * 0.02
  {
  }

  /** `random.choice(list(self.floors.keys()))`: the floor table's keys in order, picked by `pick`. */
  function SpawnFloor(pick: nat): (f: int)
    ensures ValidFloor(f)
  {
    FloorNumbersAreTheValidFloors();
    FloorNumbers[pick % |FloorNumbers|]
  }

  /** Every floor of the tower is the spawn floor for some draw. */
  lemma {:induction false} EveryFloorSpawns(f: int)
    requires ValidFloor(f)
    ensures exists pick: nat :: SpawnFloor(pick) == f
  {
    FloorNumbersAreTheValidFloors();
    assert f in FloorNumbers;
    var k :| 0 <= k < |FloorNumbers| && FloorNumbers[k] == f;
    assert k % |FloorNumbers| == k;
    assert SpawnFloor(k) == f;
  }

  /** The class `_spawn_npcs` builds for a type: a good or evil robot, or a plain NPC. */
  function KindFor(t: NpcType): (kind: NpcClass)
    ensures KindFits(kind, t)
    ensures kind == EvilRobotNpc <==> t == Evil
    ensures kind == GoodRobotNpc <==> t == Good
  {
    if t == Good then GoodRobotNpc else if t == Evil then EvilRobotNpc else PlainNpc
  }

  /**
   * The harmony bonus of `_update_game_balance`: above 75 harmony the spawn
   * interval shrinks by 0.1 per second, never below half a second.
   */
  function BalancedInterval(interval: real, harmony: real, dt: real): (r: real)
    ensures harmony <= 75.0 ==> r == interval
    ensures 0.5 <= interval && 0.0 <= dt ==> 0.5 <= r <= interval
    ensures harmony > 75.0 && 0.5 + dt * 0.1 <= interval ==> r == interval - dt * 0.1
  {
    if harmony > 75.0 then (if 0.5 > interval - dt * 0.1 then 0.5 else interval - dt * 0.1) else interval
  }

  /** The keys the scene reacts to: W, S, E for player 1, the arrows and right shift for player 2. */
  datatype Key = KeyW | KeyS | KeyE | KeyUp | KeyDown | KeyRShift | OtherKey

  datatype Command = GoUp | GoDown | Doors

  /** The commands one key press issues in `_handle_input`; player 2's keys act only in a two-player game. */
  function CommandsOf(k: Key, playerCount: int): seq<Command> {
    match k
    case KeyW => [GoUp]
    case KeyS => [GoDown]
    case KeyE => [Doors]
    case KeyUp => if playerCount == 2 then [GoUp] else []
    case KeyDown => if playerCount == 2 then [GoDown] else []
    case KeyRShift => if playerCount == 2 then [Doors] else []
    case OtherKey => []
  }

  /** The commands a batch of key presses issues, in order. */
  function CommandsFor(keys: seq<Key>, playerCount: int): seq<Command> {
    if keys == [] then [] else CommandsFor(keys[..|keys| - 1], playerCount) + CommandsOf(keys[|keys| - 1], playerCount)
  }

  /** The part of the car the commands read and change. */
  datatype Car = Car(current: int, target: int, moving: bool, doorsOpen: bool)

  /** The car refers to floors of the tower and moves only shut, towards another floor. */
  predicate CarValid(c: Car) {
    ValidFloor(c.current) && ValidFloor(c.target) && (c.moving ==> !c.doorsOpen && c.target != c.current)
  }

  /** `Elevator.move_to_floor` on the car. */
  function MoveTo(c: Car, f: int): Car {
    if ValidFloor(f) && !c.doorsOpen && f != c.current then c.(target := f, moving := true) else c
  }

  /** One command: up or down through `move_to_floor`, or `toggle_doors`. */
  function Apply(c: Car, cmd: Command): Car {
    match cmd
    case GoUp => (match UpRequest(c.current, c.moving, c.doorsOpen) case None => c case Some(f) => MoveTo(c, f))
    case GoDown => (match DownRequest(c.current, c.moving, c.doorsOpen) case None => c case Some(f) => MoveTo(c, f))
    case Doors => if c.moving then c else c.(doorsOpen := !c.doorsOpen)
  }

  function ApplyAll(c: Car, cmds: seq<Command>): Car {
    if cmds == [] then c else Apply(ApplyAll(c, cmds[..|cmds| - 1]), cmds[|cmds| - 1])
  }

  /** Applying two batches of commands is applying the first, then the second. */
  lemma {:induction false} ApplyAllAppend(c: Car, a: seq<Command>, b: seq<Command>)
    ensures ApplyAll(c, a + b) == ApplyAll(ApplyAll(c, a), b)
  {
    if b != [] {
      ApplyAllAppend(c, a, b[..|b| - 1]);
      assert (a + b)[..|a + b| - 1] == a + b[..|b| - 1];
    } else {
      assert a + b == a;
    }
  }

  /**
   * Commands keep the car valid and never change the floor it stands at;
   * a command that starts a move sends it to the neighbouring floor of the
   * tower in that direction.
   */
  lemma {:induction false} ApplyAllKeepsCarValid(c: Car, cmds: seq<Command>)
    requires CarValid(c)
    ensures CarValid(ApplyAll(c, cmds)) && ApplyAll(c, cmds).current == c.current
  {
    if cmds != [] {
      var before := ApplyAll(c, cmds[..|cmds| - 1]);
      ApplyAllKeepsCarValid(c, cmds[..|cmds| - 1]);
      UpRequestIsNextFloor(before.current, before.moving, before.doorsOpen);
      DownRequestIsNextFloor(before.current, before.moving, before.doorsOpen);
    }
  }

  /** Up and down set the car in motion exactly towards the requested neighbouring floor, and only shut. */
  lemma {:induction false} ApplyMovesToNeighbour(c: Car, cmd: Command)
    requires CarValid(c)
    ensures var r := Apply(c, cmd);
      r != c && r.target != c.target ==>
        r.moving && !c.doorsOpen &&
        (cmd == GoUp ==> r.target > c.current && forall g :: c.current < g < r.target ==> !ValidFloor(g)) &&
        (cmd == GoDown ==> r.target < c.current && forall g :: r.target < g < c.current ==> !ValidFloor(g))
  {
    UpRequestIsNextFloor(c.current, c.moving, c.doorsOpen);
    DownRequestIsNextFloor(c.current, c.moving, c.doorsOpen);
  }
}
