/**
 * The tower's emergencies: the flood with its warning, crisis and
 * resolution phases, the power outage and the fire alarm. Each is a
 * per-tick state machine; the random trigger rolls are parameters.
 */
module Disasters {
  import opened Constants
  import opened Npcs
  import opened Elevators

  /** The water line while calm: 100 px below the bottom of the screen. */
  const CalmWaterLevel: real := (ScreenHeight + 100) as real
  /** Where the crisis drives the water: up to floor 2. */
  const FloodedWaterLevel: real := (ScreenHeight - 200) as real
  /** Pixels per second the water rises; it recedes twice as fast. */
  const FloodSpeed: real := 50.0
  /** Seconds after which an active flood is forced into resolution. */
  const FloodMaxDuration: real := 45.0
  const FloodWarningTime: real := 5.0
  /** The per-tick chance that a calm tower floods. */
  const FloodChance: real := 0.0001
  /** The floor the car is sent to when the water reaches it below floor 3. */
  const SafeFloor: int := 3

  /**
   * The state of a `FloodDisaster` that the game logic reads, leaving out
   * the particles, the lightning and the screen shake. `stage` is
   * 0 calm, 1 warning, 2 rising, 3 peak, 4 receding.
   */
  datatype Flood = Flood(
    active: bool,
    waterLevel: real,
    targetWaterLevel: real,
    floodTimer: real,
    warningTimer: real,
    warningPhase: bool,
    crisisPhase: bool,
    resolutionPhase: bool,
    stage: int,
    heroesSpawned: bool,
    xenoHelping: bool,
    jamesHelping: bool)

  /** The state `__init__` and `reset` establish. */
  const Calm: Flood := Flood(false, CalmWaterLevel, CalmWaterLevel, 0.0, 0.0, false, false, false, 0, false, false, false)

  function PhaseCount(s: Flood): nat {
    (if s.warningPhase then 1 else 0) + (if s.crisisPhase then 1 else 0) + (if s.resolutionPhase then 1 else 0)
  }

  /**
   * The flood's invariant: a quiet flood is exactly the calm state; an
   * active one is in exactly one phase, and the stage number and the
   * water target agree with that phase.
   */
  predicate Coherent(s: Flood) {
    && (!s.active ==> s == Calm)
    && (s.active ==> PhaseCount(s) == 1)
    && (s.warningPhase ==> s.stage == 1 && s.targetWaterLevel == CalmWaterLevel)
    && (s.crisisPhase ==> (s.stage == 2 || s.stage == 3) && s.targetWaterLevel == FloodedWaterLevel)
    && (s.resolutionPhase ==> s.stage == 4 && s.targetWaterLevel == CalmWaterLevel)
  }

  /** `trigger_flood`: active, in the warning phase at stage 1, with five seconds of warning. */
  function Triggered(s: Flood): Flood {
    s.(active := true, stage := 1, warningPhase := true, warningTimer := FloodWarningTime)
  }

  /** A calm tower that floods starts coherently, warning first. */
  lemma TriggerFromCalm()
    ensures Coherent(Triggered(Calm))
    ensures Triggered(Calm).active && Triggered(Calm).warningPhase && PhaseCount(Triggered(Calm)) == 1
  {
  }

  /** The auto-resolve step of an active flood's `update`: past 45 s it is forced into resolution. */
  function TimedOut(s: Flood, dt: real): Flood {
    var timer := s.floodTimer + dt;
    if timer > FloodMaxDuration then
      s.(floodTimer := timer, resolutionPhase := true, crisisPhase := false, warningPhase := false,
         stage := 4, targetWaterLevel := CalmWaterLevel)
    else s.(floodTimer := timer)
  }

  /** The crisis step: the water rises towards the target; at the peak the heroes are called; both heroes helping turn the tide. */
  function Rising(s: Flood, dt: real): Flood {
    var s' :=
      if s.waterLevel > s.targetWaterLevel then
        var level := s.waterLevel - FloodSpeed * dt;
        if level <= s.targetWaterLevel then s.(waterLevel := level, stage := 3, heroesSpawned := true)
        else s.(waterLevel := level)
      else s;
    if s'.xenoHelping && s'.jamesHelping then
      s'.(resolutionPhase := true, crisisPhase := false, stage := 4, targetWaterLevel := CalmWaterLevel)
    else s'
  }

  /** The resolution step: the water recedes at twice the speed; once it is back the flood ends in `reset`. */
  function Receding(s: Flood, dt: real): Flood {
    if s.waterLevel < s.targetWaterLevel then
      var level := s.waterLevel + FloodSpeed * 2.0 * dt;
      if level >= s.targetWaterLevel then Calm else s.(waterLevel := level)
    else s
  }

  /** The phase logic of `FloodDisaster.update` for an active flood. */
  function Advance(s: Flood, dt: real): Flood {
    var s1 := TimedOut(s, dt);
    if s1.warningPhase then
      var left := s1.warningTimer - dt;
      if left <= 0.0 then
        s1.(warningTimer := left, warningPhase := false, crisisPhase := true, stage := 2, targetWaterLevel := FloodedWaterLevel)
      else s1.(warningTimer := left)
    else if s1.crisisPhase then Rising(s1, dt)
    else if s1.resolutionPhase then Receding(s1, dt)
    else s1
  }

  /** Every step of an active flood keeps it coherent: at most one phase, never a stray stage. */
  lemma AdvanceKeepsCoherent(s: Flood, dt: real)
    requires Coherent(s) && s.active
    ensures Coherent(Advance(s, dt))
  {
    var s1 := TimedOut(s, dt);
    assert Coherent(s1);
  }

  /** The warning runs out into the crisis, stage 2, with the water heading for floor 2. */
  lemma WarningEndsInCrisis(s: Flood, dt: real)
    requires Coherent(s) && s.active && s.warningPhase
    requires s.floodTimer + dt <= FloodMaxDuration && s.warningTimer - dt <= 0.0
    ensures var r := Advance(s, dt);
      r.active && r.crisisPhase && !r.warningPhase && r.stage == 2 && r.targetWaterLevel == FloodedWaterLevel
  {
  }

  /** Reaching the target level is the peak, stage 3, and calls the heroes. */
  lemma PeakCallsHeroes(s: Flood, dt: real)
    requires Coherent(s) && s.active && s.crisisPhase && s.floodTimer + dt <= FloodMaxDuration
    requires s.waterLevel > s.targetWaterLevel && s.waterLevel - FloodSpeed * dt <= s.targetWaterLevel
    requires !(s.xenoHelping && s.jamesHelping)
    ensures var r := Advance(s, dt); r.crisisPhase && r.stage == 3 && r.heroesSpawned
  {
  }

  /** With both heroes helping the crisis turns into the resolution, stage 4. */
  lemma HeroesTurnTheTide(s: Flood, dt: real)
    requires Coherent(s) && s.active && s.crisisPhase && s.floodTimer + dt <= FloodMaxDuration
    requires s.xenoHelping && s.jamesHelping
    ensures var r := Advance(s, dt); r.active && r.resolutionPhase && !r.crisisPhase && r.stage == 4
  {
  }

  /**
   * Past 45 s a flood is in resolution, stage 4, with the water headed
   * back down, unless it ended in this very tick.
   */
  lemma FloodTimesOut(s: Flood, dt: real)
    requires Coherent(s) && s.active && s.floodTimer + dt > FloodMaxDuration
    ensures var r := Advance(s, dt);
      (r.active ==> r.resolutionPhase && r.stage == 4 && r.targetWaterLevel == CalmWaterLevel) && (!r.active ==> r == Calm)
  {
  }

  /** Once the water is back at its calm line the flood ends and everything is reset. */
  lemma RecedingEndsCalm(s: Flood, dt: real)
    requires Coherent(s) && s.active && s.resolutionPhase
    requires s.waterLevel < s.targetWaterLevel && s.waterLevel + FloodSpeed * 2.0 * dt >= s.targetWaterLevel
    ensures Advance(s, dt) == Calm
  {
  }

  /**
   * A flood in resolution whose water is already at or above its calm
   * line never ends: the recede step needs the water below the line. The
   * auto-resolve reaches that state when one tick carries the flood past
   * 45 s before the water has risen, as a 46 s tick right after the
   * trigger does.
   */
  lemma {:induction false} FloodCanStall()
    ensures var s := Advance(Triggered(Calm), 46.0);
      s.active && s.resolutionPhase &&
      forall dt :: Advance(s, dt).active && Advance(s, dt).resolutionPhase && Advance(s, dt).waterLevel == s.waterLevel
  {
    var s := Advance(Triggered(Calm), 46.0);
    assert s == Triggered(Calm).(floodTimer := 46.0, resolutionPhase := true, warningPhase := false, stage := 4);
    forall dt ensures Advance(s, dt).active && Advance(s, dt).resolutionPhase && Advance(s, dt).waterLevel == s.waterLevel {
      assert Advance(s, dt) == TimedOut(s, dt);
    }
  }

  /** The water line is over the bottom edge of something `height` tall at `y`. */
  predicate Submerged(y: real, height: int, waterLevel: real) {
    y + height as real > waterLevel
  }

  function Max(a: real, b: real): real {
    if a < b then b else a
  }

  /**
   * The NPC part of the flood's `update`: everyone the water reaches keeps
   * at least five seconds of patience and panics; the rest are untouched.
   */
  method PanicSubmerged(npcs: seq<Npc>, waterLevel: real)
    modifies npcs`patience, npcs`mood
    ensures forall n :: n in npcs && Submerged(n.y, NpcHeight, waterLevel) ==>
      n.patience == Max(5.0, old(n.patience)) && n.patience >= 5.0 && n.mood == Panicked
    ensures forall n :: n in npcs && !Submerged(n.y, NpcHeight, waterLevel) ==>
      n.patience == old(n.patience) && n.mood == old(n.mood)
  {
    var i := 0;
    while i < |npcs|
      invariant 0 <= i <= |npcs|
      invariant forall n :: n in npcs[..i] && Submerged(n.y, NpcHeight, waterLevel) ==>
        n.patience == Max(5.0, old(n.patience)) && n.mood == Panicked
      invariant forall n :: n in npcs && n !in npcs[..i] ==> n.patience == old(n.patience) && n.mood == old(n.mood)
      invariant forall n :: n in npcs && !Submerged(n.y, NpcHeight, waterLevel) ==>
        n.patience == old(n.patience) && n.mood == old(n.mood)
    {
      var npc := npcs[i];
      if npc.y + NpcHeight as real > waterLevel {
        npc.patience := Max(5.0, npc.patience);
        npc.mood := Panicked;
      }
      assert npcs[..i + 1] == npcs[..i] + [npc];
      i := i + 1;
    }
  }

  class FloodDisaster {
    var active: bool
    var waterLevel: real
    var targetWaterLevel: real
    var floodTimer: real
    var warningTimer: real
    var warningPhase: bool
    var crisisPhase: bool
    var resolutionPhase: bool
    var stage: int
    var heroesSpawned: bool
    var xenoHelping: bool
    var jamesHelping: bool

    function State(): Flood
      reads this
    {
      Flood(active, waterLevel, targetWaterLevel, floodTimer, warningTimer, warningPhase, crisisPhase,
            resolutionPhase, stage, heroesSpawned, xenoHelping, jamesHelping)
    }

    predicate Valid()
      reads this
    {
      Coherent(State())
    }

    /** `__init__`: a calm tower. */
    constructor ()
      ensures Valid() && State() == Calm
    {
      active, waterLevel, targetWaterLevel := false, CalmWaterLevel, CalmWaterLevel;
      floodTimer, warningTimer := 0.0, 0.0;
      warningPhase, crisisPhase, resolutionPhase := false, false, false;
      stage := 0;
      heroesSpawned, xenoHelping, jamesHelping := false, false, false;
    }

    method SetState(s: Flood)
      modifies this
      ensures State() == s
    {
      active, waterLevel, targetWaterLevel := s.active, s.waterLevel, s.targetWaterLevel;
      floodTimer, warningTimer := s.floodTimer, s.warningTimer;
      warningPhase, crisisPhase, resolutionPhase := s.warningPhase, s.crisisPhase, s.resolutionPhase;
      stage := s.stage;
      heroesSpawned, xenoHelping, jamesHelping := s.heroesSpawned, s.xenoHelping, s.jamesHelping;
    }

    /** `trigger_flood`. */
    method TriggerFlood()
      modifies this`active, this`stage, this`warningPhase, this`warningTimer
      ensures State() == Triggered(old(State()))
      ensures old(State()) == Calm ==> Valid()
    {
      active := true;
      stage := 1;
      warningPhase := true;
      warningTimer := FloodWarningTime;
    }

    /** `reset`: every field back to its `__init__` value. */
    method Reset()
      modifies this
      ensures Valid() && State() == Calm
    {
      SetState(Calm);
    }

    /**
     * `FloodDisaster.update` without the visual effects. A calm tower
     * floods when the roll `draw` is below 0.0001. An active flood advances
     * its phases; then, with the water line as it now is, a car the water
     * reaches goes into emergency mode and, below floor 3, is sent to
     * floor 3, and every NPC the water reaches panics.
     */
    method Update(dt: real, draw: real, elevator: Elevator, npcs: seq<Npc>)
      requires Valid() && elevator.Valid()
      modifies this, elevator`emergencyMode, elevator`targetFloor, elevator`moving, npcs`patience, npcs`mood
      ensures Valid() && elevator.Valid()
      ensures !old(active) ==>
        State() == (if draw < FloodChance then Triggered(old(State())) else old(State())) &&
        elevator.emergencyMode == old(elevator.emergencyMode) &&
        elevator.targetFloor == old(elevator.targetFloor) && elevator.moving == old(elevator.moving) &&
        forall n :: n in npcs ==> n.patience == old(n.patience) && n.mood == old(n.mood)
      ensures old(active) ==> State() == Advance(old(State()), dt)
      ensures old(active) ==>
        elevator.emergencyMode == (old(elevator.emergencyMode) || Submerged(elevator.y, ElevatorHeight, waterLevel))
      ensures var sent := old(active) && Submerged(elevator.y, ElevatorHeight, waterLevel) &&
          elevator.currentFloor < SafeFloor && !elevator.doorsOpen;
        if sent then elevator.targetFloor == SafeFloor && elevator.moving
        else elevator.targetFloor == old(elevator.targetFloor) && elevator.moving == old(elevator.moving)
      ensures old(active) ==> forall n :: n in npcs && Submerged(n.y, NpcHeight, waterLevel) ==>
        n.patience == Max(5.0, old(n.patience)) && n.mood == Panicked
      ensures old(active) ==> forall n :: n in npcs && !Submerged(n.y, NpcHeight, waterLevel) ==>
        n.patience == old(n.patience) && n.mood == old(n.mood)
    {
      if !active {
        if draw < FloodChance {
          TriggerFlood();
        }
        return;
      }
      AdvanceKeepsCoherent(State(), dt);
      PhaseStep(dt);
      if elevator.y + ElevatorHeight as real > waterLevel {
        elevator.emergencyMode := true;
        if elevator.currentFloor < SafeFloor {
          elevator.MoveToFloor(SafeFloor);
        }
      }
      PanicSubmerged(npcs, waterLevel);
    }

    /** The phase logic of `update` for an active flood: the auto-resolve, then the branch of the current phase. */
    method PhaseStep(dt: real)
      modifies this
      ensures State() == Advance(old(State()), dt)
    {
      TimeOutStep(dt);
      if warningPhase {
        WarnStep(dt);
      } else if crisisPhase {
        RiseStep(dt);
      } else if resolutionPhase {
        RecedeStep(dt);
      }
    }

    /** The auto-resolve: past 45 s the flood is forced into resolution. */
    method TimeOutStep(dt: real)
      modifies this`floodTimer, this`resolutionPhase, this`crisisPhase, this`warningPhase, this`stage, this`targetWaterLevel
      ensures State() == TimedOut(old(State()), dt)
    {
      floodTimer := floodTimer + dt;
      if floodTimer > FloodMaxDuration {
        resolutionPhase, crisisPhase, warningPhase := true, false, false;
        stage := 4;
        targetWaterLevel := CalmWaterLevel;
      }
    }

    /** The warning branch of `update`: when the warning runs out the crisis begins. */
    method WarnStep(dt: real)
      requires warningPhase
      modifies this`warningTimer, this`warningPhase, this`crisisPhase, this`stage, this`targetWaterLevel
      ensures var left := old(warningTimer) - dt;
        State() == if left <= 0.0 then
          old(State()).(warningTimer := left, warningPhase := false, crisisPhase := true, stage := 2, targetWaterLevel := FloodedWaterLevel)
        else old(State()).(warningTimer := left)
    {
      warningTimer := warningTimer - dt;
      if warningTimer <= 0.0 {
        warningPhase, crisisPhase := false, true;
        stage := 2;
        targetWaterLevel := FloodedWaterLevel;
      }
    }

    /** The crisis branch of `update`. */
    method RiseStep(dt: real)
      modifies this`waterLevel, this`stage, this`heroesSpawned, this`resolutionPhase, this`crisisPhase, this`targetWaterLevel
      ensures State() == Rising(old(State()), dt)
    {
      if waterLevel > targetWaterLevel {
        waterLevel := waterLevel - FloodSpeed * dt;
        if waterLevel <= targetWaterLevel {
          stage := 3;
          if !heroesSpawned {
            heroesSpawned := true;
          }
        }
      }
      if xenoHelping && jamesHelping {
        resolutionPhase, crisisPhase := true, false;
        stage := 4;
        targetWaterLevel := CalmWaterLevel;
      }
    }

    /** The resolution branch of `update`: receding water, and `reset` once it is back. */
    method RecedeStep(dt: real)
      modifies this
      ensures State() == Receding(old(State()), dt)
    {
      if waterLevel < targetWaterLevel {
        waterLevel := waterLevel + FloodSpeed * 2.0 * dt;
        if waterLevel >= targetWaterLevel {
          active := false;
          stage := 0;
          Reset();
        }
      }
    }
  }

  const OutageDuration: real := 10.0
  const OutageChance: real := 0.00005

  /** A power outage: the emergency lights and the disabled car go with the outage itself. */
  class PowerOutage {
    var active: bool
    var timer: real
    var emergencyLightsOn: bool
    var elevatorDisabled: bool

    predicate Valid()
      reads this
    {
      emergencyLightsOn == active && elevatorDisabled == active
    }

    constructor ()
      ensures Valid() && !active && timer == 0.0
    {
      active, timer, emergencyLightsOn, elevatorDisabled := false, 0.0, false, false;
    }

    /** `trigger`: the lights switch and the car is disabled with the outage. */
    method Trigger()
      modifies this
      ensures Valid() && active && timer == 0.0
    {
      active := true;
      timer := 0.0;
      emergencyLightsOn := true;
      elevatorDisabled := true;
    }

    /**
     * `update`: a quiet grid fails when the roll `draw` is below 0.00005;
     * an outage ends, all three flags together, once it has lasted more
     * than ten seconds.
     */
    method Update(dt: real, draw: real)
      requires Valid()
      modifies this
      ensures Valid()
      ensures !old(active) ==> if draw < OutageChance then active && timer == 0.0 else !active && timer == old(timer)
      ensures old(active) ==> timer == old(timer) + dt && (active <==> timer <= OutageDuration)
    {
      if !active {
        if draw < OutageChance {
          Trigger();
        }
        return;
      }
      timer := timer + dt;
      if timer > OutageDuration {
        active := false;
        emergencyLightsOn := false;
        elevatorDisabled := false;
      }
    }
  }

  const AlarmDuration: real := 30.0

  /** Python's `int` on a float: the integer part, rounding towards zero. */
  function TruncateToInt(x: real): (r: int)
    ensures 0.0 <= x ==> r as real <= x < r as real + 1.0
    ensures x < 0.0 ==> r as real - 1.0 < x <= r as real
  {
    if x >= 0.0 then x.Floor else -((-x).Floor)
  }

  /** A fire alarm: a thirty second countdown whose siren toggles four times a second. */
  class FireAlarm {
    var active: bool
    var alarmTimer: real
    var alarmSound: bool

    predicate Valid()
      reads this
    {
      active ==> 0.0 < alarmTimer <= AlarmDuration
    }

    constructor ()
      ensures Valid() && !active && alarmTimer == 0.0 && alarmSound
    {
      active, alarmTimer, alarmSound := false, 0.0, true;
    }

    /** `trigger`: thirty seconds to evacuate. */
    method Trigger()
      modifies this`active, this`alarmTimer
      ensures Valid() && active && alarmTimer == AlarmDuration
    {
      active := true;
      alarmTimer := AlarmDuration;
    }

    /**
     * `update`: only an active alarm counts down, and it goes quiet once
     * the countdown reaches zero. Python's `%` on a negative integer
     * floors, which for a positive divisor agrees with Dafny's `%`.
     */
    method Update(dt: real)
      requires Valid() && dt >= 0.0
      modifies this
      ensures Valid()
      ensures !old(active) ==> !active && alarmTimer == old(alarmTimer) && alarmSound == old(alarmSound)
      ensures old(active) ==> alarmTimer == old(alarmTimer) - dt && (active <==> alarmTimer > 0.0)
      ensures old(active) ==> alarmSound == (TruncateToInt(alarmTimer * 4.0) % 2 == 0)
    {
      if active {
        alarmTimer := alarmTimer - dt;
        alarmSound := TruncateToInt(alarmTimer * 4.0) % 2 == 0;
        if alarmTimer <= 0.0 {
          active := false;
        }
      }
    }
  }
}
