/**
 * The tower's NPCs: their types, moods, destination choice and the per-tick
 * behaviour of plain NPCs, good robots and evil robots.
 *
 * An NPC is an object shared by reference between the scene's NPC list, a
 * floor's waiting queue and the elevator's passenger list, so it is a class.
 */
module Npcs {
  import opened Constants
  import opened Wrappers

  /** The `npc_type` string: "good", "evil", "neutral" or "special". */
  datatype NpcType = Good | Evil | Neutral | Special

  /** The `mood` string; `NeutralMood` is the initial "neutral". */
  datatype Mood = NeutralMood | Happy | Angry | Determined | Aggressive | Sad | Defeated | Panicked

  /** The Python class an NPC was built from: `NPC`, `GoodRobot`, `EvilRobot` or a `SpecialNPC`. */
  datatype NpcClass = PlainNpc | GoodRobotNpc | EvilRobotNpc | SpecialNpc

  /** The weighted list `_choose_destination` draws from. */
  function DestinationChoices(t: NpcType): seq<int> {
    match t
    case Good => [4, 4, 4, 5]
    case Evil => [-1, -1, -1, 0]
    case _ => [0, 1, 2, 3, 5]
  }

  /** `_choose_destination`, with `random.choice` resolved by the index `pick`. */
  function ChooseDestination(t: NpcType, pick: nat): (d: int)
    ensures t == Good ==> d in {4, 5}
    ensures t == Evil ==> d in {-1, 0}
    ensures t == Neutral || t == Special ==> d in {0, 1, 2, 3, 5}
    ensures ValidFloor(d)
  {
    var choices := DestinationChoices(t);
    choices[pick % |choices|]
  }

  /** Every floor on a type's list is chosen by some draw, and only those floors are. */
  lemma {:induction false} ChooseDestinationIsOnto(t: NpcType, d: int)
    ensures d in DestinationChoices(t) <==> exists pick: nat :: ChooseDestination(t, pick) == d
  {
    var choices := DestinationChoices(t);
    if d in choices {
      var k :| 0 <= k < |choices| && choices[k] == d;
      assert ChooseDestination(t, k) == d;
    }
  }

  /** Good robots head for the robotics lab on three draws out of four, evil robots for the basement. */
  lemma {:induction false} DestinationWeights(pick: nat)
    ensures ChooseDestination(Good, pick) == 4 <==> pick % 4 < 3
    ensures ChooseDestination(Evil, pick) == -1 <==> pick % 4 < 3
  {
  }

  /** The types a class can carry: a good robot stays good, an evil robot may only be converted to neutral. */
  predicate KindFits(kind: NpcClass, t: NpcType) {
    match kind
    case PlainNpc => true
    case GoodRobotNpc => t == Good
    case EvilRobotNpc => t == Evil || t == Neutral
    case SpecialNpc => t == Special
  }

  /**
   * The moods `interact_with` gives to the initiator and to the other NPC,
   * or None when the pair of types has no reaction.
   */
  function InteractionMoods(a: NpcType, b: NpcType): Option<(Mood, Mood)> {
    if a == Good && b == Evil then Some((Determined, Aggressive))
    else if a == Evil && b == Good then Some((Aggressive, Determined))
    else if a == b then Some((Happy, Happy))
    else None
  }

  /** Who starts an interaction does not matter: swapping the two NPCs swaps their moods. */
  lemma {:induction false} InteractionIsSymmetric(a: NpcType, b: NpcType)
    ensures InteractionMoods(a, b).Some? <==> InteractionMoods(b, a).Some?
    ensures InteractionMoods(a, b).Some? ==>
      InteractionMoods(a, b).value.0 == InteractionMoods(b, a).value.1 &&
      InteractionMoods(a, b).value.1 == InteractionMoods(b, a).value.0
  {
  }

  /** Seconds before `interact_with` may act again. */
  const InteractionCooldown: real := 2.0
  /** Animation frames cycle through 0 .. FrameCount - 1. */
  const FrameCount: int := 4
  const FrameTime: real := 0.1
  const GoodRobotLoveCharges: int := 3
  const FightWinsForRage: int := 3

  /** What `NPC.update` changes of an NPC besides its patience. */
  datatype Pose = Pose(animationTimer: real, animationFrame: int, interactionCooldown: real, mood: Mood)

  /**
   * `NPC.update` on the pose of an NPC with the given `waiting` and
   * `in_elevator` flags and patience before the tick: the frame advances
   * once the timer passes 0.1 s, a positive cooldown counts down, and an
   * NPC waiting outside the car whose patience runs out turns angry.
   */
  function Ticked(p: Pose, waiting: bool, inElevator: bool, patience: real, dt: real): Pose {
    var t := p.animationTimer + dt;
    Pose(
      if t > FrameTime then 0.0 else t,
      if t > FrameTime then (p.animationFrame + 1) % FrameCount else p.animationFrame,
      if p.interactionCooldown > 0.0 then p.interactionCooldown - dt else p.interactionCooldown,
      if waiting && !inElevator && patience - dt <= 0.0 then Angry else p.mood)
  }

  class Npc {
    const kind: NpcClass
    var npcType: NpcType
    /** The `name` attribute; the empty string stands for an NPC that has none. */
    var name: string
    var homeFloor: int
    var destinationFloor: int
    var currentFloor: int
    var y: real
    var inElevator: bool
    var waiting: bool
    var speed: real
    var patience: real
    var mood: Mood
    var interactionCooldown: real
    var animationFrame: int
    var animationTimer: real
    /** Evil NPCs only; 0.0 stands for the missing attribute. */
    var aggression: real
    /** Good robots only. */
    var loveCharges: int
    /** Evil robots only. */
    var fightWins: int
    var rageMode: bool

    predicate Valid()
      reads this
    {
      && 0 <= animationFrame < FrameCount
      && 0 <= loveCharges <= GoodRobotLoveCharges
      && 0 <= fightWins
      && (fightWins >= FightWinsForRage ==> rageMode && aggression == 1.0)
      && KindFits(kind, npcType)
    }

    function PoseOf(): Pose
      reads this
    {
      Pose(animationTimer, animationFrame, interactionCooldown, mood)
    }

    /**
     * `NPC.__init__` together with the robot subclasses' additions; the
     * draws stand for `random.choice` and `random.uniform`.
     */
    constructor (kind: NpcClass, t: NpcType, y: real, destPick: nat, patienceDraw: real, aggressionDraw: real)
      requires KindFits(kind, t) && (kind == EvilRobotNpc ==> t == Evil)
      requires 10.0 <= patienceDraw <= 30.0
      requires t == Evil ==> 0.5 <= aggressionDraw <= 1.0
      ensures Valid()
      ensures this.kind == kind && npcType == t && name == "" && this.y == y
      ensures destinationFloor == ChooseDestination(t, destPick)
      ensures currentFloor == 0 && homeFloor == 0 && !inElevator && waiting
      ensures patience == patienceDraw && mood == NeutralMood && interactionCooldown == 0.0
      ensures animationFrame == 0 && animationTimer == 0.0 && speed == NpcSpeed
      ensures aggression == if t == Evil then aggressionDraw else 0.0
      ensures loveCharges == if kind == GoodRobotNpc then GoodRobotLoveCharges else 0
      ensures fightWins == 0 && !rageMode
    {
      this.kind := kind;
      npcType := t;
      name := "";
      homeFloor := 0;
      this.y := y;
      destinationFloor := ChooseDestination(t, destPick);
      currentFloor := 0;
      inElevator := false;
      waiting := true;
      speed := NpcSpeed;
      patience := patienceDraw;
      mood := NeutralMood;
      interactionCooldown := 0.0;
      animationFrame := 0;
      animationTimer := 0.0;
      aggression := if t == Evil then aggressionDraw else 0.0;
      loveCharges := if kind == GoodRobotNpc then GoodRobotLoveCharges else 0;
      fightWins := 0;
      rageMode := false;
    }

    /**
     * `NPC.update`: the animation frame advances every 0.1 s, a positive
     * cooldown counts down, and patience drains only while waiting outside
     * the car, turning the NPC angry once it is used up.
     */
    method Update(dt: real)
      modifies this`animationTimer, this`animationFrame, this`interactionCooldown, this`patience, this`mood
      ensures old(animationTimer) + dt > FrameTime ==>
        animationTimer == 0.0 && animationFrame == (old(animationFrame) + 1) % FrameCount
      ensures old(animationTimer) + dt <= FrameTime ==>
        animationTimer == old(animationTimer) + dt && animationFrame == old(animationFrame)
      ensures interactionCooldown == if old(interactionCooldown) > 0.0 then old(interactionCooldown) - dt else old(interactionCooldown)
      ensures patience == if waiting && !inElevator then old(patience) - dt else old(patience)
      ensures mood == if waiting && !inElevator && patience <= 0.0 then Angry else old(mood)
      ensures old(Valid()) ==> Valid()
      ensures PoseOf() == Ticked(old(PoseOf()), waiting, inElevator, old(patience), dt)
    {
      animationTimer := animationTimer + dt;
      if animationTimer > FrameTime {
        animationTimer := 0.0;
        animationFrame := (animationFrame + 1) % FrameCount;
      }
      if interactionCooldown > 0.0 {
        interactionCooldown := interactionCooldown - dt;
      }
      if waiting && !inElevator {
        patience := patience - dt;
        if patience <= 0.0 {
          mood := Angry;
        }
      }
    }

    /**
     * `interact_with`: nothing while the cooldown runs; otherwise both moods
     * follow the pair of types and the cooldown restarts at 2 s.
     */
    method InteractWith(other: Npc)
      modifies this`mood, this`interactionCooldown, other`mood
      ensures old(interactionCooldown) > 0.0 ==>
        interactionCooldown == old(interactionCooldown) && mood == old(mood) && other.mood == old(other.mood)
      ensures old(interactionCooldown) <= 0.0 ==> interactionCooldown == InteractionCooldown
      ensures old(interactionCooldown) <= 0.0 && InteractionMoods(npcType, other.npcType).Some? ==>
        mood == InteractionMoods(npcType, other.npcType).value.0 &&
        other.mood == InteractionMoods(npcType, other.npcType).value.1
      ensures old(interactionCooldown) <= 0.0 && InteractionMoods(npcType, other.npcType).None? ==>
        mood == old(mood) && other.mood == old(other.mood)
    {
      if interactionCooldown <= 0.0 {
        if npcType == Good && other.npcType == Evil {
          mood := Determined;
          other.mood := Aggressive;
        } else if npcType == Evil && other.npcType == Good {
          mood := Aggressive;
          other.mood := Determined;
        } else if npcType == other.npcType {
          mood := Happy;
          other.mood := Happy;
        }
        interactionCooldown := InteractionCooldown;
      }
    }

    /**
     * `GoodRobot.spread_love`: each use spends one of the three charges; an
     * evil target is converted to neutral on a draw below 0.3, a neutral one
     * becomes happy.
     */
    method SpreadLove(target: Npc, draw: real)
      requires kind == GoodRobotNpc && Valid()
      requires 0.0 <= draw < 1.0
      modifies this`loveCharges, target`npcType, target`mood
      ensures Valid()
      ensures loveCharges == if old(loveCharges) > 0 then old(loveCharges) - 1 else old(loveCharges)
      ensures target.npcType ==
        if old(loveCharges) > 0 && old(target.npcType) == Evil && draw < 0.3 then Neutral else old(target.npcType)
      ensures target.mood ==
        if old(loveCharges) > 0 && old(target.npcType) == Neutral then Happy else old(target.mood)
      ensures old(target.Valid()) ==> target.Valid()
    {
      if loveCharges > 0 {
        loveCharges := loveCharges - 1;
        if target.npcType == Evil {
          if draw < 0.3 {
            target.npcType := Neutral;
          }
        } else if target.npcType == Neutral {
          target.mood := Happy;
        }
      }
    }

    /** `EvilRobot.enter_rage_mode`: rage on, speed up by half, full aggression. */
    method EnterRageMode()
      requires kind == EvilRobotNpc
      modifies this`rageMode, this`speed, this`aggression
      ensures rageMode && speed == old(speed) * 1.5 && aggression == 1.0
      ensures old(Valid()) ==> Valid()
    {
      rageMode := true;
      speed := speed * 1.5;
      aggression := 1.0;
    }

    /**
     * `EvilRobot.challenge_to_fight`: against an evil robot a draw below the
     * aggression is a win, and the third win brings rage; against a good
     * robot a draw below 0.5 saddens the target, otherwise the challenger is
     * defeated.
     */
    method ChallengeToFight(target: Npc, draw: real)
      requires kind == EvilRobotNpc && Valid()
      requires 0.0 <= draw < 1.0
      modifies this`fightWins, this`rageMode, this`speed, this`aggression, this`mood, target`mood
      ensures Valid()
      ensures var won := old(target.npcType) == Evil && draw < old(aggression);
        fightWins == if won then old(fightWins) + 1 else old(fightWins)
      ensures var raging := old(target.npcType) == Evil && draw < old(aggression) && old(fightWins) + 1 >= FightWinsForRage;
        if raging then rageMode && aggression == 1.0 && speed == old(speed) * 1.5
        else rageMode == old(rageMode) && aggression == old(aggression) && speed == old(speed)
      ensures mood == if old(target.npcType) == Good && draw >= 0.5 then Defeated else old(mood)
      ensures target.mood == if old(target.npcType) == Good && draw < 0.5 then Sad else old(target.mood)
    {
      if target.npcType == Evil {
        if draw < aggression {
          fightWins := fightWins + 1;
          if fightWins >= FightWinsForRage {
            EnterRageMode();
          }
        }
      } else if target.npcType == Good {
        if draw < 0.5 {
          target.mood := Sad;
        } else {
          mood := Defeated;
        }
      }
    }
  }
}
