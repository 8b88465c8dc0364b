/**
 * The gameplay scene: the car, the floors with their queues, the NPCs in
 * play, the score and the chaos/harmony balance, advanced one tick at a
 * time.
 */
module Scene {
  import opened Constants
  import opened Wrappers
  import opened Seqs
  import opened Npcs
  import opened Elevators
  import opened Floors
  import opened SceneRules
  import opened Arrivals

  /** The car's command-relevant state. */
  function CarOf(e: Elevator): Car
    reads e
  {
    Car(e.currentFloor, e.targetFloor, e.moving, e.doorsOpen)
  }

  /** What `update` reads of an NPC to decide whether it times out, and what it costs. */
  datatype Snapshot = Snapshot(patience: real, waiting: bool, inElevator: bool, npcType: NpcType)

  function SnapshotOf(n: Npc): Snapshot
    reads n
  {
    Snapshot(n.patience, n.waiting, n.inElevator, n.npcType)
  }

  /** The snapshots of a list of NPCs, element by element. */
  function Snapshots(s: seq<Npc>): (r: seq<Snapshot>)
    reads s
    ensures |r| == |s| && forall k :: 0 <= k < |s| ==> r[k] == SnapshotOf(s[k])
  {
    seq(|s|, k requires 0 <= k < |s| reads s => SnapshotOf(s[k]))
  }

  /** `update` lowers the patience of an NPC waiting outside the car by `dt`. */
  function PatienceAfter(n: Snapshot, dt: real): real {
    if n.waiting && !n.inElevator then n.patience - dt else n.patience
  }

  /** `update` has lowered this NPC's patience to nothing while it was outside the car. */
  predicate TimesOut(n: Snapshot, dt: real) {
    !n.inElevator && PatienceAfter(n, dt) <= 0.0
  }

  /** Whether each NPC times out. */
  function TimeoutFlags(s: seq<Snapshot>, dt: real): (r: seq<bool>)
    ensures |r| == |s| && forall k :: 0 <= k < |s| ==> r[k] == TimesOut(s[k], dt)
  {
    seq(|s|, k requires 0 <= k < |s| => TimesOut(s[k], dt))
  }

  /** The pose `NPC.update` gives `n`, from its fields before the tick. */
  function TickOf(n: Npc, dt: real): Pose
    reads n
  {
    Ticked(n.PoseOf(), n.waiting, n.inElevator, n.patience, dt)
  }

  /** The poses `NPC.update` gives a list of NPCs, element by element. */
  function Ticks(s: seq<Npc>, dt: real): (r: seq<Pose>)
    reads s
    ensures |r| == |s| && forall k :: 0 <= k < |s| ==> r[k] == TickOf(s[k], dt)
  {
    seq(|s|, k requires 0 <= k < |s| reads s => TickOf(s[k], dt))
  }

  /**
   * The cooldown of `n` after its turn of `_update_npcs`, from its cooldown
   * `c` after `NPC.update`: in the car, free to interact and with a fellow
   * passenger, it restarts at 2 s; otherwise it stays.
   */
  function TurnCooldown(c: real, inCar: bool, passengers: seq<Npc>, n: Npc): real {
    if inCar && c <= 0.0 && FirstOther(passengers, n) < |passengers| then InteractionCooldown else c
  }

  /** The types of the NPCs that time out, in order. */
  function TimedOutTypes(s: seq<Snapshot>, dt: real): seq<NpcType> {
    if s == [] then []
    else TimedOutTypes(s[..|s| - 1], dt) + (if TimesOut(s[|s| - 1], dt) then [s[|s| - 1].npcType] else [])
  }

  /** The floor loop of `ElevatorScene.__init__`: one fresh floor per floor of the tower, 120 px apart, skipping 13. */
  method BuildFloors() returns (floors: map<int, Floor>)
    ensures forall f :: f in floors <==> ValidFloor(f)
    ensures forall f :: f in floors ==>
      && fresh(floors[f]) && floors[f].floorNumber == f && floors[f].Valid() && floors[f].waiting == []
      && floors[f].y == (ScreenHeight - 200) - AdjustedFloor(f) * FloorHeight
  {
    floors := map[];
    var i := 0;
    while i < |FloorNumbers|
      invariant 0 <= i <= |FloorNumbers|
      invariant forall f :: f in floors <==> f in FloorNumbers[..i]
      invariant forall f :: f in floors ==>
        && fresh(floors[f]) && floors[f].floorNumber == f && floors[f].Valid() && floors[f].waiting == []
        && floors[f].y == (ScreenHeight - 200) - AdjustedFloor(f) * FloorHeight
    {
      var n := FloorNumbers[i];
      var floor := new Floor(n, (ScreenHeight - 200) - AdjustedFloor(n) * FloorHeight);
      assert FloorNumbers[..i + 1] == FloorNumbers[..i] + [n];
      floors := floors[n := floor];
      i := i + 1;
    }
    assert FloorNumbers[..i] == FloorNumbers;
    FloorNumbersAreTheValidFloors();
  }

  /** The NPCs of all the queues of `rooms`. */
  ghost function QueuedIn(rooms: seq<Floor>): set<Npc>
    reads rooms
  {
    set k, n | 0 <= k < |rooms| && n in rooms[k].waiting :: n
  }

  /** No NPC is in two of the queues of `rooms`. */
  ghost predicate QueuesApart(rooms: seq<Floor>)
    reads rooms
  {
    forall a, b, n :: 0 <= a < |rooms| && 0 <= b < |rooms| && a != b && n in rooms[a].waiting ==> n !in rooms[b].waiting
  }

  /**
   * The floor loop of `update`: every floor runs `Floor.update` once, in
   * the order of the floor table. The queues are disjoint, so each waiting
   * NPC loses `dt` exactly once.
   */
  method UpdateQueues(rooms: seq<Floor>, dt: real)
    requires NoDuplicates(rooms) && QueuesApart(rooms)
    requires forall k :: 0 <= k < |rooms| ==> rooms[k].Valid() && NoDuplicates(rooms[k].waiting)
    modifies rooms`waiting, QueuedIn(rooms)`patience
    ensures forall k :: 0 <= k < |rooms| ==> rooms[k].Valid() && NoDuplicates(rooms[k].waiting)
    ensures forall k :: 0 <= k < |rooms| ==> rooms[k].waiting == Filter(old(rooms[k].waiting), old(PatientAfter(rooms[k].waiting, dt)))
    ensures forall k, n :: 0 <= k < |rooms| && n in old(rooms[k].waiting) ==> n.patience == old(n.patience) - dt
  {
    ghost var queued, queues, keeps, patience := StartRooms(rooms, dt);
    for i := 0 to |rooms|
      invariant RoomsUpdated(rooms, i, dt, queued, queues, keeps, patience)
    {
      UpdateRoom(rooms, i, dt, queued, queues, keeps, patience);
    }
    FinishRooms(rooms, dt, queued, queues, keeps, patience);
  }

  /**
   * The floor loop of `update` has run on the first `i` floors of `rooms`:
   * their queues are the old ones (`queues`) filtered to `keeps`, and their
   * NPCs have lost `dt` from their old `patience`; the other floors and their
   * NPCs are as they were.
   */
  ghost predicate RoomsUpdated(rooms: seq<Floor>, i: nat, dt: real, queued: set<Npc>,
                               queues: seq<seq<Npc>>, keeps: seq<set<Npc>>, patience: map<Npc, real>)
    reads rooms, queued
  {
    && i <= |rooms| && RoomsRecorded(rooms, dt, queued, queues, keeps, patience)
    && QueuesAt(rooms, i, queues, keeps) && PatienceAt(rooms, i, dt, queued, queues, patience)
  }

  /** What the floor loop records before it starts: the old queues, who outlasts `dt`, and the old patience. */
  ghost predicate RoomsRecorded(rooms: seq<Floor>, dt: real, queued: set<Npc>,
                                queues: seq<seq<Npc>>, keeps: seq<set<Npc>>, patience: map<Npc, real>)
  {
    && |queues| == |rooms| && |keeps| == |rooms| && NoDuplicates(rooms)
    && (forall k, n :: 0 <= k < |rooms| && n in queues[k] ==> n in queued && n in patience)
    && (forall a, b, n :: 0 <= a < |rooms| && 0 <= b < |rooms| && a != b && n in queues[a] ==> n !in queues[b])
    && (forall k :: 0 <= k < |rooms| ==> keeps[k] == Outlasting(queues[k], patience, dt))
  }

  /** The queues of the first `i` floors are filtered, the others are as they were; every floor stays valid. */
  ghost predicate QueuesAt(rooms: seq<Floor>, i: nat, queues: seq<seq<Npc>>, keeps: seq<set<Npc>>)
    requires |queues| == |rooms| && |keeps| == |rooms|
    reads rooms
  {
    forall k :: 0 <= k < |rooms| ==>
      && rooms[k].Valid() && NoDuplicates(rooms[k].waiting)
      && rooms[k].waiting == if k < i then Filter(queues[k], keeps[k]) else queues[k]
  }

  /** The NPCs queued on the first `i` floors have lost `dt`, the others have their old patience. */
  ghost predicate PatienceAt(rooms: seq<Floor>, i: nat, dt: real, queued: set<Npc>, queues: seq<seq<Npc>>, patience: map<Npc, real>)
    requires |queues| == |rooms|
    requires forall k, n :: 0 <= k < |rooms| && n in queues[k] ==> n in queued && n in patience
    reads queued
  {
    forall k, n :: 0 <= k < |rooms| && n in queues[k] ==> n.patience == if k < i then patience[n] - dt else patience[n]
  }

  /** The NPCs of `queue` whose patience, as recorded in `patience`, stays positive after losing `dt`. */
  ghost function Outlasting(queue: seq<Npc>, patience: map<Npc, real>, dt: real): set<Npc> {
    set n | n in queue && n in patience && patience[n] - dt > 0.0
  }

  /** Before the floor loop no floor has run. */
  lemma StartRooms(rooms: seq<Floor>, dt: real)
      returns (queued: set<Npc>, queues: seq<seq<Npc>>, keeps: seq<set<Npc>>, patience: map<Npc, real>)
    requires NoDuplicates(rooms) && QueuesApart(rooms)
    requires forall k :: 0 <= k < |rooms| ==> rooms[k].Valid() && NoDuplicates(rooms[k].waiting)
    ensures queued == QueuedIn(rooms) && |queues| == |rooms| && |keeps| == |rooms|
    ensures forall k :: 0 <= k < |rooms| ==> queues[k] == rooms[k].waiting && keeps[k] == PatientAfter(rooms[k].waiting, dt)
    ensures forall k, n :: 0 <= k < |rooms| && n in queues[k] ==> n in patience && patience[n] == n.patience
    ensures RoomsUpdated(rooms, 0, dt, queued, queues, keeps, patience)
  {
    queued := QueuedIn(rooms);
    queues := seq(|rooms|, k requires 0 <= k < |rooms| reads rooms => rooms[k].waiting);
    patience := map n | n in queued :: n.patience;
    keeps := seq(|rooms|, k requires 0 <= k < |rooms| => Outlasting(queues[k], patience, dt));
    forall k, n | 0 <= k < |rooms| && n in queues[k] ensures n in queued && n in patience {
      assert n in rooms[k].waiting;
    }
    forall k | 0 <= k < |rooms| ensures keeps[k] == PatientAfter(rooms[k].waiting, dt) {
      assert forall n :: n in queues[k] ==> n in queued;
    }
  }

  /** After the floor loop every floor has run. */
  lemma FinishRooms(rooms: seq<Floor>, dt: real, queued: set<Npc>,
                    queues: seq<seq<Npc>>, keeps: seq<set<Npc>>, patience: map<Npc, real>)
    requires RoomsUpdated(rooms, |rooms|, dt, queued, queues, keeps, patience)
    ensures forall k :: 0 <= k < |rooms| ==> rooms[k].Valid() && NoDuplicates(rooms[k].waiting)
    ensures forall k :: 0 <= k < |rooms| ==> rooms[k].waiting == Filter(queues[k], keeps[k])
    ensures forall k, n :: 0 <= k < |rooms| && n in queues[k] ==> n.patience == patience[n] - dt
  {
  }

  /** One step of the floor loop of `update`: the `i`-th floor runs `Floor.update`, and no other queue changes. */
  method UpdateRoom(rooms: seq<Floor>, i: nat, dt: real, ghost queued: set<Npc>,
                    ghost queues: seq<seq<Npc>>, ghost keeps: seq<set<Npc>>, ghost patience: map<Npc, real>)
    requires i < |rooms| && RoomsUpdated(rooms, i, dt, queued, queues, keeps, patience)
    modifies rooms`waiting, queued`patience
    ensures RoomsUpdated(rooms, i + 1, dt, queued, queues, keeps, patience)
  {
    var room := rooms[i];
    assert forall n :: n in room.waiting ==> n in queued;
    assert PatientAfter(room.waiting, dt) == keeps[i];
    room.Update(dt);
    forall k | 0 <= k < |rooms| && k != i
      ensures rooms[k].waiting == old(rooms[k].waiting)
    {
      assert rooms[k] != room;
    }
    forall k, n | 0 <= k < |rooms| && k != i && n in queues[k]
      ensures n.patience == old(n.patience)
    {
      assert n !in queues[i];
    }
  }

  /**
   * The passenger loop of `_update_npcs`: `npc` calls `interact_with` on
   * every other passenger, but the first call restarts its cooldown, so
   * only the first passenger other than itself is ever affected.
   */
  method InteractWithPassengers(npc: Npc, elevator: Elevator)
    modifies npc`mood, npc`interactionCooldown, elevator.passengers`mood
    ensures var ps := elevator.passengers; var k := FirstOther(ps, npc);
      if old(npc.interactionCooldown) > 0.0 || k == |ps| then
        && npc.interactionCooldown == old(npc.interactionCooldown) && npc.mood == old(npc.mood)
        && forall p :: p in ps ==> p.mood == old(p.mood)
      else
        && npc.interactionCooldown == InteractionCooldown
        && (forall p :: p in ps && p != npc && p != ps[k] ==> p.mood == old(p.mood))
        && match InteractionMoods(npc.npcType, ps[k].npcType)
           case None => npc.mood == old(npc.mood) && ps[k].mood == old(ps[k].mood)
           case Some(moods) => npc.mood == moods.0 && ps[k].mood == moods.1
  {
    var ps := elevator.passengers;
    ghost var k := FirstOther(ps, npc);
    var i := 0;
    while i < |ps|
      invariant 0 <= i <= |ps|
      invariant i <= k || old(npc.interactionCooldown) > 0.0 ==>
        && npc.interactionCooldown == old(npc.interactionCooldown) && npc.mood == old(npc.mood)
        && forall p :: p in ps ==> p.mood == old(p.mood)
      invariant k < i && old(npc.interactionCooldown) <= 0.0 ==>
        && npc.interactionCooldown == InteractionCooldown
        && (forall p :: p in ps && p != npc && p != ps[k] ==> p.mood == old(p.mood))
        && match InteractionMoods(npc.npcType, ps[k].npcType)
           case None => npc.mood == old(npc.mood) && ps[k].mood == old(ps[k].mood)
           case Some(moods) => npc.mood == moods.0 && ps[k].mood == moods.1
    {
      if ps[i] != npc {
        npc.InteractWith(ps[i]);
      }
      i := i + 1;
    }
  }

  /**
   * `n` has had its turn of `_update_npcs`, `p` being the pose its
   * `NPC.update` gave it: the animation as `p` says, the cooldown as
   * `TurnCooldown` says, and, outside the car and off the passenger list,
   * the mood as `p` says (angry once patience is used up).
   */
  ghost predicate Turned(n: Npc, p: Pose, passengers: seq<Npc>)
    reads n
  {
    && n.animationTimer == p.animationTimer && n.animationFrame == p.animationFrame
    && n.interactionCooldown == TurnCooldown(p.interactionCooldown, n.inElevator, passengers, n)
    && (!n.inElevator && n !in passengers ==> n.mood == p.mood)
  }

  /**
   * One turn of the `_update_npcs` loop without the list bookkeeping: the
   * NPC's `update`, the test for a timeout outside the car, and the
   * interactions of an NPC in the car.
   */
  method UpdateNpc(npc: Npc, dt: real, elevator: Elevator) returns (timedOut: bool)
    modifies npc`animationTimer, npc`animationFrame, npc`interactionCooldown, npc`patience, npc`mood
    modifies elevator.passengers`mood
    ensures timedOut <==> TimesOut(old(SnapshotOf(npc)), dt)
    ensures npc.patience == PatienceAfter(old(SnapshotOf(npc)), dt)
    ensures var p := old(TickOf(npc, dt));
      && npc.animationTimer == p.animationTimer && npc.animationFrame == p.animationFrame
      && npc.interactionCooldown == TurnCooldown(p.interactionCooldown, npc.inElevator, elevator.passengers, npc)
      && (!npc.inElevator ==> npc.mood == p.mood)
  {
    npc.Update(dt);
    timedOut := npc.patience <= 0.0 && !npc.inElevator;
    if npc.inElevator {
      InteractWithPassengers(npc, elevator);
    }
  }

  /**
   * The loop of `_update_npcs` over a copy of the NPC list: every NPC runs
   * its `update` once; the result flags those that timed out outside the car.
   */
  method UpdateEach(queue: seq<Npc>, dt: real, elevator: Elevator) returns (outs: seq<bool>)
    requires NoDuplicates(queue)
    modifies queue`animationTimer, queue`animationFrame, queue`interactionCooldown, queue`patience, queue`mood
    modifies elevator.passengers`mood
    ensures outs == TimeoutFlags(old(Snapshots(queue)), dt)
    ensures forall k :: 0 <= k < |queue| ==> queue[k].patience == PatienceAfter(old(SnapshotOf(queue[k])), dt)
    ensures AllTurned(queue, old(Ticks(queue, dt)), elevator.passengers)
  {
    ghost var before, ticks, poses := StartTurns(queue, dt, elevator.passengers);
    outs := [];
    var i := 0;
    while i < |queue|
      invariant 0 <= i <= |queue|
      invariant |outs| == i
      invariant forall k :: 0 <= k < i ==> outs[k] == TimesOut(before[k], dt)
      invariant PosesTick(before, poses, ticks, dt)
      invariant TurnsTaken(queue, i, dt, before, ticks, poses, elevator.passengers)
    {
      var timedOut := TakeTurn(queue, i, dt, elevator, before, ticks, poses);
      outs := outs + [timedOut];
      i := i + 1;
    }
    FinishTurns(queue, dt, before, ticks, poses, elevator.passengers);
  }

  /** Before the loop of `UpdateEach` nobody has had a turn. */
  lemma StartTurns(queue: seq<Npc>, dt: real, passengers: seq<Npc>)
      returns (before: seq<Snapshot>, ticks: seq<Pose>, poses: seq<Pose>)
    ensures before == Snapshots(queue) && ticks == Ticks(queue, dt)
    ensures PosesTick(before, poses, ticks, dt) && TurnsTaken(queue, 0, dt, before, ticks, poses, passengers)
  {
    before, ticks := Snapshots(queue), Ticks(queue, dt);
    poses := seq(|queue|, k requires 0 <= k < |queue| reads queue => queue[k].PoseOf());
  }

  /** After the loop of `UpdateEach` everybody has had a turn. */
  lemma FinishTurns(queue: seq<Npc>, dt: real, before: seq<Snapshot>, ticks: seq<Pose>, poses: seq<Pose>, passengers: seq<Npc>)
    requires TurnsTaken(queue, |queue|, dt, before, ticks, poses, passengers)
    ensures forall k :: 0 <= k < |queue| ==> queue[k].patience == PatienceAfter(before[k], dt)
    ensures AllTurned(queue, ticks, passengers)
  {
  }

  /** `n` has not had its turn yet: the fields `Turned` looks at are still those of its pose `p`. */
  ghost predicate Unturned(n: Npc, p: Pose, passengers: seq<Npc>)
    reads n
  {
    && n.animationTimer == p.animationTimer && n.animationFrame == p.animationFrame
    && n.interactionCooldown == p.interactionCooldown
    && (n !in passengers ==> n.mood == p.mood)
  }

  /**
   * The loop of `UpdateEach` has given the first `i` NPCs of `queue` their
   * turn, and left the others as `before` and `poses` found them.
   */
  ghost predicate TurnsTaken(queue: seq<Npc>, i: nat, dt: real, before: seq<Snapshot>, ticks: seq<Pose>, poses: seq<Pose>, passengers: seq<Npc>)
    reads queue
  {
    && i <= |queue| && |before| == |queue| && |ticks| == |queue| && |poses| == |queue|
    && (forall k :: 0 <= k < |queue| ==> queue[k].waiting == before[k].waiting && queue[k].inElevator == before[k].inElevator)
    && (forall k :: 0 <= k < i ==> queue[k].patience == PatienceAfter(before[k], dt))
    && (forall k :: i <= k < |queue| ==> queue[k].patience == before[k].patience)
    && (forall k :: 0 <= k < i ==> Turned(queue[k], ticks[k], passengers))
    && (forall k :: i <= k < |queue| ==> Unturned(queue[k], poses[k], passengers))
  }

  /** `ticks` are the poses `NPC.update` makes of `poses`, given the snapshots `before`. */
  ghost predicate PosesTick(before: seq<Snapshot>, poses: seq<Pose>, ticks: seq<Pose>, dt: real) {
    && |poses| == |before| && |ticks| == |before|
    && forall k :: 0 <= k < |before| ==> ticks[k] == Ticked(poses[k], before[k].waiting, before[k].inElevator, before[k].patience, dt)
  }

  /** The body of the loop of `UpdateEach`: the `i`-th NPC of the copy takes its turn. */
  method TakeTurn(queue: seq<Npc>, i: nat, dt: real, elevator: Elevator, ghost before: seq<Snapshot>, ghost ticks: seq<Pose>, ghost poses: seq<Pose>)
    returns (timedOut: bool)
    requires NoDuplicates(queue) && i < |queue|
    requires TurnsTaken(queue, i, dt, before, ticks, poses, elevator.passengers)
    requires PosesTick(before, poses, ticks, dt)
    modifies queue`animationTimer, queue`animationFrame, queue`interactionCooldown, queue`patience, queue`mood
    modifies elevator.passengers`mood
    ensures TurnsTaken(queue, i + 1, dt, before, ticks, poses, elevator.passengers)
    ensures timedOut == TimesOut(before[i], dt)
  {
    var n := queue[i];
    ghost var now := TickOf(n, dt);
    assert now.animationTimer == ticks[i].animationTimer && now.animationFrame == ticks[i].animationFrame;
    assert now.interactionCooldown == ticks[i].interactionCooldown;
    assert n !in elevator.passengers ==> now.mood == ticks[i].mood;
    label Turn:
    timedOut := UpdateNpc(n, dt, elevator);
    TurnedAgain(n, now, ticks[i], elevator.passengers);
    forall k | 0 <= k < |queue| && k != i
      ensures queue[k].patience == old@Turn(queue[k].patience)
      ensures old@Turn(Turned(queue[k], ticks[k], elevator.passengers)) ==> Turned(queue[k], ticks[k], elevator.passengers)
      ensures old@Turn(Unturned(queue[k], poses[k], elevator.passengers)) ==> Unturned(queue[k], poses[k], elevator.passengers)
    {
      assert queue[k] != n;
    }
  }

  /** Every NPC of `s` has had its turn, `ticks` giving the poses their `NPC.update` gave them. */
  ghost predicate AllTurned(s: seq<Npc>, ticks: seq<Pose>, passengers: seq<Npc>)
    reads s
  {
    |ticks| == |s| && forall k :: 0 <= k < |s| ==> Turned(s[k], ticks[k], passengers)
  }

  /** `Turned` only looks at the animation, the cooldown, and the mood of an NPC off the passenger list. */
  lemma TurnedAgain(n: Npc, p: Pose, q: Pose, passengers: seq<Npc>)
    requires Turned(n, p, passengers)
    requires p.animationTimer == q.animationTimer && p.animationFrame == q.animationFrame
    requires p.interactionCooldown == q.interactionCooldown
    requires n !in passengers ==> p.mood == q.mood
    ensures Turned(n, q, passengers)
  {
  }

  /**
   * `_update_npcs` on the NPC list and the scoreboard: the updates, the
   * removals of the NPCs that timed out, and their penalties.
   */
  method UpdateAll(all: seq<Npc>, dt: real, elevator: Elevator, board: Scoreboard, ghost ticks: seq<Pose>)
    returns (remaining: seq<Npc>, after: Scoreboard)
    requires NoDuplicates(all) && InRange(board) && ticks == Ticks(all, dt)
    modifies all`animationTimer, all`animationFrame, all`interactionCooldown, all`patience, all`mood
    modifies elevator.passengers`mood
    ensures remaining == Unflagged(all, TimeoutFlags(old(Snapshots(all)), dt)) && NoDuplicates(remaining)
    ensures forall k :: 0 <= k < |all| ==> all[k].patience == PatienceAfter(old(SnapshotOf(all[k])), dt)
    ensures after == TimeoutPenalties(board, TimedOutTypes(old(Snapshots(all)), dt)) && InRange(after)
    ensures after.delivered == board.delivered
    ensures AllTurned(all, ticks, elevator.passengers)
  {
    var before := Snapshots(all);
    var outs := UpdateEach(all, dt, elevator);
    remaining := RemoveFlagged(all, outs);
    UnflaggedKeeps(all, outs);
    var gone := TimedOutTypes(before, dt);
    after := TimeoutPenalties(board, gone);
    TimeoutPenaltiesEffect(board, gone);
  }

  /**
   * The two patience steps of one tick of `update` for the NPCs queued on
   * one floor: that floor's `Floor.update`, then the NPC loop of
   * `_update_npcs`. An NPC in play that waits outside the car is in both, so
   * it loses `dt` twice a tick; and one that the floor keeps in its queue can
   * then time out of play while it is still queued there.
   */
  method UpdateQueueThenAll(floor: Floor, all: seq<Npc>, dt: real, elevator: Elevator, board: Scoreboard)
    returns (remaining: seq<Npc>, after: Scoreboard)
    requires floor.Valid() && NoDuplicates(floor.waiting)
    requires NoDuplicates(all) && InRange(board)
    modifies floor`waiting, floor.waiting`patience
    modifies all`animationTimer, all`animationFrame, all`interactionCooldown, all`patience, all`mood
    modifies elevator.passengers`mood
    ensures forall k :: 0 <= k < |all| && all[k] in old(floor.waiting) && old(all[k].waiting) && !old(all[k].inElevator) ==>
      all[k].patience == old(all[k].patience) - 2.0 * dt
    ensures forall k :: 0 <= k < |all| && all[k] in old(floor.waiting) && old(all[k].waiting) && !old(all[k].inElevator) ==>
      (old(all[k].patience) - dt > 0.0 >= old(all[k].patience) - 2.0 * dt ==> all[k] !in remaining && all[k] in floor.waiting)
  {
    ghost var queue := floor.waiting;
    ghost var keep := PatientAfter(queue, dt);
    floor.Update(dt);
    FilterKeepsExactly(queue, keep);
    ghost var snaps := Snapshots(all);
    ghost var flags := TimeoutFlags(snaps, dt);
    remaining, after := UpdateAll(all, dt, elevator, board, Ticks(all, dt));
    UnflaggedKeeps(all, flags);
  }

  /**
   * The removals of `_update_npcs`: walking over a copy of the list, each
   * NPC flagged as timed out is removed from the list itself.
   */
  method RemoveFlagged(queue: seq<Npc>, flags: seq<bool>) returns (remaining: seq<Npc>)
    requires NoDuplicates(queue) && |flags| == |queue|
    ensures remaining == Unflagged(queue, flags)
  {
    assert |queue| == |flags|;
    remaining := queue;
    var i := 0;
    while i < |queue|
      invariant 0 <= i <= |queue|
      invariant remaining == UnflaggedPrefix(queue, flags, i) + queue[i..]
    {
      UnflaggedStep(queue, flags, i, remaining);
      if flags[i] {
        remaining := RemoveFirst(remaining, queue[i]);
      }
      i := i + 1;
    }
  }

  /** The type and name role of each delivered NPC, in order: what `_score_delivery` reads. */
  function DeliveriesOf(s: seq<Npc>): (r: seq<Delivery>)
    reads s`npcType, s`name
    ensures |r| == |s| && forall k :: 0 <= k < |s| ==> r[k] == Delivery(s[k].npcType, RoleOf(s[k].name))
  {
    DeliveriesFrom(s, 0)
  }

  /** The deliveries of `s[i..]`. */
  function DeliveriesFrom(s: seq<Npc>, i: nat): (r: seq<Delivery>)
    requires i <= |s|
    reads s`npcType, s`name
    ensures |r| == |s| - i && forall k :: i <= k < |s| ==> r[k - i] == Delivery(s[k].npcType, RoleOf(s[k].name))
    decreases |s| - i
  {
    if i == |s| then [] else [Delivery(s[i].npcType, RoleOf(s[i].name))] + DeliveriesFrom(s, i + 1)
  }

  /** Whether one of the deliveries has the given role. */
  predicate Delivers(ds: seq<Delivery>, role: Role) {
    exists d :: d in ds && d.role == role
  }

  /**
   * The `self.npcs.remove(npc)` calls of `_handle_elevator_arrivals`, one
   * per delivered NPC in car order, each guarded so that an NPC no longer
   * in play is skipped instead of raising.
   */
  method RemoveDelivered(all: seq<Npc>, leaving: seq<Npc>) returns (rest: seq<Npc>)
    ensures rest == RemoveEach(all, leaving)
  {
    rest := all;
    var i := 0;
    while i < |leaving|
      invariant 0 <= i <= |leaving|
      invariant rest == RemoveEachPrefix(all, leaving, i)
    {
      if leaving[i] in rest {
        rest := RemoveFirst(rest, leaving[i]);
      }
      i := i + 1;
    }
  }

  /**
   * The same calls as written, unguarded: `list.remove` raises
   * `ValueError` for an NPC missing from the list, which `crashed` reports.
   * That happens exactly when some delivered NPC is no longer in play.
   */
  method RemoveDeliveredAsWritten(all: seq<Npc>, leaving: seq<Npc>) returns (rest: seq<Npc>, crashed: bool)
    requires NoDuplicates(all) && NoDuplicates(leaving)
    ensures crashed <==> exists n :: n in leaving && n !in all
    ensures !crashed ==> rest == RemoveEach(all, leaving)
  {
    rest := all;
    var i := 0;
    while i < |leaving|
      invariant 0 <= i <= |leaving|
      invariant rest == RemoveEachPrefix(all, leaving, i)
      invariant forall k :: 0 <= k < i ==> leaving[k] in all
    {
      RemoveEachPrefixMembers(all, leaving, i);
      if leaving[i] !in rest {
        NotInPrefix(leaving, i);
        return rest, true;
      }
      rest := RemoveFirst(rest, leaving[i]);
      i := i + 1;
    }
    return rest, false;
  }

  /**
   * The car side of `_handle_elevator_arrivals` at floor `f`: the riders
   * bound for `f` get off in car order, then the floor's queue boards from
   * the front while there is room.
   */
  method ServeStop(elevator: Elevator, floor: Floor, f: int) returns (leaving: seq<Npc>, boarded: nat)
    requires elevator.Valid() && NoDuplicates(elevator.passengers)
    requires floor.Valid() && NoDuplicates(floor.waiting)
    modifies elevator`passengers, elevator.passengers`inElevator, elevator.passengers`waiting
    modifies floor`waiting, floor.waiting`inElevator, floor.waiting`waiting
    ensures elevator.Valid() && floor.Valid()
    ensures var ps := old(elevator.passengers); var flags := old(AlightFlags(elevator.passengers, f));
      var room := ElevatorMaxCapacity - |Unflagged(ps, flags)|; var q := old(floor.waiting);
      && leaving == Flagged(ps, flags)
      && boarded == (if |q| < room then |q| else room)
      && elevator.passengers == Unflagged(ps, flags) + q[..boarded]
      && floor.waiting == q[boarded..]
  {
    leaving := ExitAtFloor(elevator, f);
    boarded := BoardFromQueue(elevator, floor);
  }

  /**
   * After a stop the riders are the ones who stayed and the front `b` of the
   * queue: still distinct, all from the old car or that front, and none of
   * them among those left waiting.
   */
  lemma BoardingKeepsApart(ps: seq<Npc>, flags: seq<bool>, q: seq<Npc>, b: nat)
    requires |flags| == |ps| && b <= |q| && NoDuplicates(ps) && NoDuplicates(q)
    requires forall n :: n in q ==> n !in ps
    ensures NoDuplicates(Unflagged(ps, flags) + q[..b])
    ensures forall n :: n in Unflagged(ps, flags) + q[..b] ==> n in ps || n in q[..b]
    ensures forall n :: n in q[b..] ==> n !in Unflagged(ps, flags) + q[..b]
  {
    var stay := Unflagged(ps, flags);
    UnflaggedKeeps(ps, flags);
    var front := q[..b];
    SplitApart(q, b);
    AppendDisjoint(stay, front);
  }

  /** What `_spawn_npcs` builds for type `t` on floor `f`: its robot or plain class, waiting there. */
  ghost predicate BuiltAsSpawn(n: Npc, t: NpcType, f: int, destPick: nat, patienceDraw: real)
    reads n
  {
    && n.kind == KindFor(t) && n.npcType == t && n.name == "" && n.currentFloor == f
    && n.destinationFloor == ChooseDestination(t, destPick) && n.patience == patienceDraw
    && n.waiting && !n.inElevator
  }

  /** The NPC `_spawn_npcs` builds, with `y` taken from the floor's top. */
  method BuildSpawn(t: NpcType, f: int, floorY: int, destPick: nat, patienceDraw: real, aggressionDraw: real)
      returns (npc: Npc)
    requires 10.0 <= patienceDraw <= 30.0 && 0.5 <= aggressionDraw <= 1.0
    ensures fresh(npc) && BuiltAsSpawn(npc, t, f, destPick, patienceDraw)
  {
    npc := new Npc(KindFor(t), t, (floorY - NpcHeight) as real, destPick, patienceDraw, aggressionDraw);
    npc.currentFloor := f;
  }

  /** John the doorman: a neutral plain NPC on the street floor, bound for floor 1, 2 or 3, with a patience of 999. */
  ghost predicate BuiltAsJohn(n: Npc, destPick: nat)
    reads n
  {
    && n.kind == PlainNpc && n.npcType == Neutral && n.name == "John" && n.currentFloor == 0
    && n.destinationFloor == [1, 2, 3][destPick % 3] && n.patience == 999.0
    && n.waiting && !n.inElevator
  }

  /**
   * The NPC `_update_john` builds; `basePick` and `baseDraw` stand for the
   * constructor's draws that John's own values replace.
   */
  method BuildJohn(floorY: int, destPick: nat, basePick: nat, baseDraw: real) returns (npc: Npc)
    requires 10.0 <= baseDraw <= 30.0
    ensures fresh(npc) && BuiltAsJohn(npc, destPick)
  {
    npc := new Npc(PlainNpc, Neutral, (floorY - NpcHeight) as real, basePick, baseDraw, 0.0);
    npc.name := "John";
    npc.destinationFloor := [1, 2, 3][destPick % 3];
    npc.patience := 999.0;
    npc.currentFloor := 0;
  }

  /** Alan the mastermind: a good plain NPC in the robotics lab, bound for floor 8, 9 or 11, with a patience of 999. */
  ghost predicate BuiltAsAlan(n: Npc, destPick: nat)
    reads n
  {
    && n.kind == PlainNpc && n.npcType == Good && n.name == "Alan" && n.currentFloor == 4
    && n.destinationFloor == [8, 9, 11][destPick % 3] && n.patience == 999.0
    && n.waiting && !n.inElevator
  }

  /** The NPC `_update_alan` builds. */
  method BuildAlan(floorY: int, destPick: nat, basePick: nat, baseDraw: real) returns (npc: Npc)
    requires 10.0 <= baseDraw <= 30.0
    ensures fresh(npc) && BuiltAsAlan(npc, destPick)
  {
    npc := new Npc(PlainNpc, Good, (floorY - NpcHeight) as real, basePick, baseDraw, 0.0);
    npc.name := "Alan";
    npc.destinationFloor := [8, 9, 11][destPick % 3];
    npc.patience := 999.0;
    npc.currentFloor := 4;
  }

  /**
   * An escaped robot: an evil robot in the basement, bound for floor 0 .. 3
   * with a patience of 60, already raging at full aggression.
   */
  ghost predicate BuiltAsEscapee(n: Npc, destPick: nat)
    reads n
  {
    && n.kind == EvilRobotNpc && n.npcType == Evil && n.name == "Escaped Robot" && n.currentFloor == -1
    && n.destinationFloor == [0, 1, 2, 3][destPick % 4] && n.patience == 60.0
    && n.rageMode && n.aggression == 1.0 && n.waiting && !n.inElevator
  }

  /** The robot `_update_escaped_robots` builds. */
  method BuildEscapee(floorY: int, destPick: nat, basePick: nat, baseDraw: real, aggressionDraw: real)
      returns (npc: Npc)
    requires 10.0 <= baseDraw <= 30.0 && 0.5 <= aggressionDraw <= 1.0
    ensures fresh(npc) && BuiltAsEscapee(npc, destPick)
  {
    npc := new Npc(EvilRobotNpc, Evil, (floorY - NpcHeight) as real, basePick, baseDraw, aggressionDraw);
    npc.name := "Escaped Robot";
    npc.destinationFloor := [0, 1, 2, 3][destPick % 4];
    npc.currentFloor := -1;
    npc.patience := 60.0;
    npc.EnterRageMode();
  }

  /**
   * The part of the scene that deliveries change: the NPCs in play, the
   * scoreboard, and the John and Alan slots with their respawn timers.
   */
  datatype Tally = Tally(npcs: seq<Npc>, board: Scoreboard, john: Npc?, johnTimer: real, alan: Npc?, alanTimer: real)

  /**
   * The tally once the riders `leaving` got off at floor `f` as the
   * deliveries `ds`: they leave play, each scores as `_score_delivery` says,
   * and a delivered John or Alan is forgotten with its timer drawn anew.
   */
  function AfterDeliveries(t: Tally, leaving: seq<Npc>, ds: seq<Delivery>, f: int, johnDraw: real, alanDraw: real): (r: Tally)
    ensures r.board.delivered == t.board.delivered + |ds|
    ensures r.john == null <==> t.john == null || Delivers(ds, Doorman)
    ensures r.alan == null <==> t.alan == null || Delivers(ds, Mastermind)
  {
    ScoreDeliveriesEffect(t.board, ds, f);
    Tally(RemoveEach(t.npcs, leaving), ScoreDeliveries(t.board, ds, f),
      if Delivers(ds, Doorman) then null else t.john,
      if Delivers(ds, Doorman) then johnDraw else t.johnTimer,
      if Delivers(ds, Mastermind) then null else t.alan,
      if Delivers(ds, Mastermind) then alanDraw else t.alanTimer)
  }

  /**
   * Deliveries keep the scene's bookkeeping sound: the NPCs in play stay
   * distinct and are exactly the old ones minus the riders who left, and
   * chaos and harmony stay within 0 .. 100 without dropping.
   */
  lemma AfterDeliveriesKeepsBooks(t: Tally, leaving: seq<Npc>, ds: seq<Delivery>, f: int, johnDraw: real, alanDraw: real)
    requires NoDuplicates(t.npcs) && InRange(t.board)
    ensures var r := AfterDeliveries(t, leaving, ds, f, johnDraw, alanDraw);
      && NoDuplicates(r.npcs) && (forall n :: n in r.npcs <==> n in t.npcs && n !in leaving)
      && InRange(r.board) && r.board.chaos >= t.board.chaos && r.board.harmony >= t.board.harmony
  {
    RemoveEachMembers(t.npcs, leaving);
    ScoreDeliveriesEffect(t.board, ds, f);
  }

  class ElevatorScene {
    const playerCount: int
    const elevator: Elevator
    /** The floor objects by floor number. */
    const floors: map<int, Floor>
    var npcs: seq<Npc>
    var spawnTimer: real
    var spawnInterval: real
    var score: int
    var passengersDelivered: nat
    var chaosLevel: real
    var harmonyLevel: real
    var john: Npc?
    var spawnJohnTimer: real
    var alan: Npc?
    var spawnAlanTimer: real
    var escapedBadRobots: seq<Npc>

    function Board(): Scoreboard
      reads this
    {
      Scoreboard(score, passengersDelivered, chaosLevel, harmonyLevel)
    }

    function CurrentTally(): Tally
      reads this
    {
      Tally(npcs, Board(), john, spawnJohnTimer, alan, spawnAlanTimer)
    }

    /** The floors map has one floor per floor of the tower, each with a bounded queue without repeats. */
    ghost predicate FloorsValid()
      reads floors.Values
    {
      && (forall f :: f in floors <==> ValidFloor(f))
      && (forall f :: f in floors ==> floors[f].floorNumber == f && floors[f].Valid() && NoDuplicates(floors[f].waiting))
    }

    /** An NPC waits on one floor at most. */
    ghost predicate QueuesDisjoint()
      reads floors.Values
    {
      forall f, g, n :: f in floors && g in floors && f != g && n in floors[f].waiting ==> n !in floors[g].waiting
    }

    /** Everything the scene keeps invariant outside the car. */
    ghost predicate StateValid()
      reads this, floors.Values
    {
      && FloorsValid()
      && QueuesDisjoint()
      && NoDuplicates(npcs)
      && InRange(Board())
      && 0.5 <= spawnInterval <= NpcSpawnRate
    }

    /** The riders are distinct, and none of them is also waiting on a floor. */
    ghost predicate CarDisjoint()
      reads elevator, floors.Values
    {
      && NoDuplicates(elevator.passengers)
      && forall f, n :: f in floors && n in floors[f].waiting ==> n !in elevator.passengers
    }

    ghost predicate Valid()
      reads this, elevator, floors.Values
    {
      elevator.Valid() && StateValid() && CarDisjoint()
    }

    /**
     * `ElevatorScene.__init__`: the car at y 518 on the street floor, a
     * floor for every floor of the tower whose y counts down from 568 in
     * storeys, no NPCs, the first spawn after 2 s, John after 5 s, Alan
     * after 10 s, and a zero score, chaos and harmony.
     */
    constructor (playerCount: int)
      ensures Valid() && fresh(elevator)
      ensures this.playerCount == playerCount
      ensures elevator.y == (ScreenHeight - 250) as real && CarOf(elevator) == Car(0, 0, false, false)
      ensures elevator.passengers == []
      ensures forall f :: f in floors ==>
        fresh(floors[f]) && floors[f].waiting == [] && floors[f].y == (ScreenHeight - 200) - AdjustedFloor(f) * FloorHeight
      ensures npcs == [] && spawnTimer == 2.0 && spawnInterval == NpcSpawnRate
      ensures Board() == Scoreboard(0, 0, 0.0, 0.0)
      ensures john == null && spawnJohnTimer == 5.0 && alan == null && spawnAlanTimer == 10.0
      ensures escapedBadRobots == []
    {
      var built := BuildFloors();
      var car := new Elevator((ScreenHeight - 250) as real);
      car.currentFloor := 0;
      this.playerCount := playerCount;
      elevator := car;
      floors := built;
      npcs := [];
      spawnTimer := 2.0;
      spawnInterval := NpcSpawnRate;
      score := 0;
      passengersDelivered := 0;
      chaosLevel := 0.0;
      harmonyLevel := 0.0;
      john := null;
      spawnJohnTimer := 5.0;
      alan := null;
      spawnAlanTimer := 10.0;
      escapedBadRobots := [];
    }

    /** `_move_elevator_up`: the command on the car, as `Apply` describes it. */
    method MoveElevatorUp()
      requires Valid()
      modifies elevator`targetFloor, elevator`moving
      ensures Valid()
      ensures CarOf(elevator) == Apply(old(CarOf(elevator)), GoUp)
    {
      var current := elevator.currentFloor;
      if current >= HighestFloor {
      } else if current == 12 {
        elevator.MoveToFloor(14);
      } else if elevator.moving {
      } else if elevator.doorsOpen {
      } else {
        elevator.MoveToFloor(current + 1);
      }
    }

    /** `_move_elevator_down`: the command on the car, as `Apply` describes it. */
    method MoveElevatorDown()
      requires Valid()
      modifies elevator`targetFloor, elevator`moving
      ensures Valid()
      ensures CarOf(elevator) == Apply(old(CarOf(elevator)), GoDown)
    {
      var current := elevator.currentFloor;
      if current <= LowestFloor {
      } else if current == 14 {
        elevator.MoveToFloor(12);
      } else if elevator.moving {
      } else if elevator.doorsOpen {
      } else {
        elevator.MoveToFloor(current - 1);
      }
    }

    /** One key press of `_handle_input`: its commands applied to the car. */
    method HandleKey(k: Key)
      requires Valid()
      modifies elevator`targetFloor, elevator`moving, elevator`doorsOpen
      ensures Valid()
      ensures CarOf(elevator) == ApplyAll(old(CarOf(elevator)), CommandsOf(k, playerCount))
    {
      if k == KeyW {
        MoveElevatorUp();
      } else if k == KeyS {
        MoveElevatorDown();
      } else if k == KeyE {
        elevator.ToggleDoors();
      }
      if playerCount == 2 {
        if k == KeyUp {
          MoveElevatorUp();
        } else if k == KeyDown {
          MoveElevatorDown();
        } else if k == KeyRShift {
          elevator.ToggleDoors();
        }
      }
      assert [GoUp][..0] == [] && [GoDown][..0] == [] && [Doors][..0] == [];
    }

    /**
     * `_handle_input`: each key press issues its commands in turn, so the
     * car ends as `ApplyAll` says.
     */
    method HandleInput(keys: seq<Key>)
      requires Valid()
      modifies elevator`targetFloor, elevator`moving, elevator`doorsOpen
      ensures Valid()
      ensures CarOf(elevator) == ApplyAll(old(CarOf(elevator)), CommandsFor(keys, playerCount))
    {
      var i := 0;
      while i < |keys|
        invariant 0 <= i <= |keys|
        invariant Valid()
        invariant CarOf(elevator) == ApplyAll(old(CarOf(elevator)), CommandsFor(keys[..i], playerCount))
      {
        ghost var before := CarOf(elevator);
        HandleKey(keys[i]);
        assert keys[..i + 1][..i] == keys[..i];
        ApplyAllAppend(old(CarOf(elevator)), CommandsFor(keys[..i], playerCount), CommandsOf(keys[i], playerCount));
        i := i + 1;
      }
      assert keys[..i] == keys;
    }
    /**
     * `_handle_elevator_arrivals`, with the removal from play guarded: when
     * the car stands at a floor with its doors open, the riders bound for it
     * get off (`leaving`, in car order) and leave play, each scoring as
     * `_score_delivery` says (a delivered John or Alan is forgotten and its
     * respawn timer drawn anew), then the floor's queue boards from the
     * front while there is room. Otherwise nothing happens.
     */
    method HandleElevatorArrivals(johnDraw: real, alanDraw: real) returns (leaving: seq<Npc>, delivered: seq<Delivery>)
      requires Valid()
      modifies this`npcs, this`score, this`passengersDelivered, this`chaosLevel, this`harmonyLevel
      modifies this`john, this`spawnJohnTimer, this`alan, this`spawnAlanTimer
      modifies elevator`passengers, elevator.passengers`inElevator, elevator.passengers`waiting
      modifies {floors[elevator.currentFloor]}`waiting
      modifies floors[elevator.currentFloor].waiting`inElevator, floors[elevator.currentFloor].waiting`waiting
      ensures Valid()
      ensures old(elevator.moving || !elevator.doorsOpen) ==>
        leaving == [] && unchanged(this) && unchanged(elevator) && unchanged(floors[elevator.currentFloor])
      ensures old(!elevator.moving && elevator.doorsOpen) ==>
        var ps := old(elevator.passengers);
        var flags := old(AlightFlags(elevator.passengers, elevator.currentFloor));
        var room := ElevatorMaxCapacity - |Unflagged(ps, flags)|;
        var q := old(floors[elevator.currentFloor].waiting);
        var b := if |q| < room then |q| else room;
        && leaving == Flagged(ps, flags)
        && elevator.passengers == Unflagged(ps, flags) + q[..b]
        && floors[elevator.currentFloor].waiting == q[b..]
      ensures delivered == DeliveriesOf(leaving)
      ensures CurrentTally() == AfterDeliveries(old(CurrentTally()), leaving, delivered, elevator.currentFloor, johnDraw, alanDraw)
    {
      if elevator.moving || !elevator.doorsOpen {
        return [], [];
      }
      leaving, delivered := StopAtCurrentFloor(johnDraw, alanDraw);
    }

    /** The body of `_handle_elevator_arrivals` once the car stands with its doors open. */
    method StopAtCurrentFloor(johnDraw: real, alanDraw: real) returns (leaving: seq<Npc>, delivered: seq<Delivery>)
      requires Valid() && !elevator.moving && elevator.doorsOpen
      modifies this`npcs, this`score, this`passengersDelivered, this`chaosLevel, this`harmonyLevel
      modifies this`john, this`spawnJohnTimer, this`alan, this`spawnAlanTimer
      modifies elevator`passengers, elevator.passengers`inElevator, elevator.passengers`waiting
      modifies {floors[elevator.currentFloor]}`waiting
      modifies floors[elevator.currentFloor].waiting`inElevator, floors[elevator.currentFloor].waiting`waiting
      ensures Valid()
      ensures var ps := old(elevator.passengers);
        var flags := old(AlightFlags(elevator.passengers, elevator.currentFloor));
        var room := ElevatorMaxCapacity - |Unflagged(ps, flags)|;
        var q := old(floors[elevator.currentFloor].waiting);
        var b := if |q| < room then |q| else room;
        && leaving == Flagged(ps, flags)
        && elevator.passengers == Unflagged(ps, flags) + q[..b]
        && floors[elevator.currentFloor].waiting == q[b..]
      ensures delivered == DeliveriesOf(leaving)
      ensures CurrentTally() == AfterDeliveries(old(CurrentTally()), leaving, delivered, elevator.currentFloor, johnDraw, alanDraw)
    {
      var f := elevator.currentFloor;
      ghost var ps := elevator.passengers;
      ghost var flags := AlightFlags(ps, f);
      ghost var q := floors[f].waiting;
      var boarded;
      leaving, boarded := ServeCurrentFloor(f, ps, flags, q);
      assert CurrentTally() == old(CurrentTally()) && elevator.currentFloor == f;
      delivered := DeliveriesOf(leaving);
      ghost var car := elevator.passengers;
      ghost var rest := floors[f].waiting;
      DeliverAll(leaving, delivered, f, johnDraw, alanDraw);
      assert elevator.passengers == car && floors[f].waiting == rest && elevator.currentFloor == f;
    }

    /**
     * The two loops of `_handle_elevator_arrivals` at the car's floor `f`,
     * as `ServeStop` describes them, keep the car and the queues apart: no
     * rider is also waiting, and the riders stay distinct.
     */
    method ServeCurrentFloor(f: int, ghost ps: seq<Npc>, ghost flags: seq<bool>, ghost q: seq<Npc>)
        returns (leaving: seq<Npc>, boarded: nat)
      requires Valid() && f == elevator.currentFloor
      requires ps == elevator.passengers && flags == AlightFlags(ps, f) && q == floors[f].waiting
      modifies elevator`passengers, elevator.passengers`inElevator, elevator.passengers`waiting
      modifies {floors[f]}`waiting, floors[f].waiting`inElevator, floors[f].waiting`waiting
      ensures Valid()
      ensures var room := ElevatorMaxCapacity - |Unflagged(ps, flags)|;
        && leaving == Flagged(ps, flags)
        && boarded == (if |q| < room then |q| else room)
        && elevator.passengers == Unflagged(ps, flags) + q[..boarded]
        && floors[f].waiting == q[boarded..]
    {
      var floor := floors[f];
      leaving, boarded := ServeStop(elevator, floor, f);
      BoardingKeepsApart(ps, flags, q, boarded);
      forall g, x | g in floors && x in floors[g].waiting
        ensures x !in elevator.passengers
      {
        if g != f {
          assert floors[g] != floor && floors[g].waiting == old(floors[g].waiting);
          assert x !in ps && x !in q;
        }
      }
    }

    /**
     * The rest of `_handle_elevator_arrivals` for the riders who got off at
     * floor `f`, in car order: each leaves play and scores as
     * `_score_delivery` says, and a delivered John or Alan is forgotten with
     * its respawn timer drawn anew.
     */
    method DeliverAll(leaving: seq<Npc>, ds: seq<Delivery>, f: int, johnDraw: real, alanDraw: real)
      requires Valid()
      modifies this`npcs, this`score, this`passengersDelivered, this`chaosLevel, this`harmonyLevel
      modifies this`john, this`spawnJohnTimer, this`alan, this`spawnAlanTimer
      ensures Valid()
      ensures CurrentTally() == AfterDeliveries(old(CurrentTally()), leaving, ds, f, johnDraw, alanDraw)
    {
      var t := AfterDeliveries(CurrentTally(), leaving, ds, f, johnDraw, alanDraw);
      AfterDeliveriesKeepsBooks(CurrentTally(), leaving, ds, f, johnDraw, alanDraw);
      SetTally(t);
    }

    /** The tallied fields become `t`'s. */
    method SetTally(t: Tally)
      requires Valid() && NoDuplicates(t.npcs) && InRange(t.board)
      modifies this`npcs, this`score, this`passengersDelivered, this`chaosLevel, this`harmonyLevel
      modifies this`john, this`spawnJohnTimer, this`alan, this`spawnAlanTimer
      ensures Valid() && CurrentTally() == t
    {
      SetBoard(t.board);
      SetRoster(t.npcs, t.john, t.johnTimer, t.alan, t.alanTimer);
    }

    /** The score, the delivery count, chaos and harmony become `board`'s. */
    method SetBoard(board: Scoreboard)
      requires Valid() && InRange(board)
      modifies this`score, this`passengersDelivered, this`chaosLevel, this`harmonyLevel
      ensures Valid() && Board() == board
    {
      score := board.score;
      passengersDelivered := board.delivered;
      chaosLevel := board.chaos;
      harmonyLevel := board.harmony;
    }

    /** The NPCs in play and the John and Alan slots become the given ones. */
    method SetRoster(rest: seq<Npc>, john': Npc?, johnTimer: real, alan': Npc?, alanTimer: real)
      requires Valid() && NoDuplicates(rest)
      modifies this`npcs, this`john, this`spawnJohnTimer, this`alan, this`spawnAlanTimer
      ensures Valid() && npcs == rest
      ensures john == john' && spawnJohnTimer == johnTimer && alan == alan' && spawnAlanTimer == alanTimer
    {
      npcs := rest;
      john := john';
      spawnJohnTimer := johnTimer;
      alan := alan';
      spawnAlanTimer := alanTimer;
    }

    /**
     * The tail every spawner shares: the new NPC joins the NPCs in play and
     * the back of floor `f`'s queue. A full queue turns it away, yet it stays
     * in play without waiting anywhere.
     */
    method Admit(npc: Npc, f: int) returns (queued: bool)
      requires Valid() && f in floors
      requires npc !in npcs && npc !in elevator.passengers && forall g :: g in floors ==> npc !in floors[g].waiting
      modifies this`npcs, {floors[f]}`waiting
      ensures Valid()
      ensures npcs == old(npcs) + [npc]
      ensures queued <==> |old(floors[f].waiting)| < MaxWaiting
      ensures floors[f].waiting == Queued(old(floors[f].waiting), npc)
    {
      var floor := floors[f];
      npcs := npcs + [npc];
      queued := floor.AddWaitingNpc(npc);
      forall g, h, n | g in floors && h in floors && g != h && n in floors[g].waiting
        ensures n !in floors[h].waiting
      {
        if g == f {
          assert floors[h] != floor;
        } else if h == f {
          assert floors[g] != floor;
        }
      }
    }

    /**
     * `_spawn_npcs`: the spawn timer runs down; once it is out it restarts
     * at the spawn interval, an NPC of the type `_determine_npc_type` draws
     * is built on the drawn floor and admitted, and the interval is set
     * from the chaos level. The draws stand for `random.random()`, the
     * floor choice and the constructor's own draws.
     */
    method SpawnNpcs(dt: real, r: real, floorPick: nat, destPick: nat, patienceDraw: real, aggressionDraw: real)
        returns (spawned: Npc?)
      requires Valid() && 0.0 <= r < 1.0 && 10.0 <= patienceDraw <= 30.0 && 0.5 <= aggressionDraw <= 1.0
      modifies this`spawnTimer, this`spawnInterval, this`npcs, {floors[SpawnFloor(floorPick)]}`waiting
      ensures Valid()
      ensures old(spawnTimer) - dt > 0.0 ==>
        && spawned == null && spawnTimer == old(spawnTimer) - dt && spawnInterval == old(spawnInterval)
        && npcs == old(npcs) && unchanged(floors[SpawnFloor(floorPick)])
      ensures old(spawnTimer) - dt <= 0.0 ==>
        var f := SpawnFloor(floorPick);
        && spawned != null && fresh(spawned) && npcs == old(npcs) + [spawned]
        && spawnTimer == old(spawnInterval) && spawnInterval == SpawnIntervalFor(chaosLevel)
        && BuiltAsSpawn(spawned, DetermineNpcType(chaosLevel, r), f, destPick, patienceDraw)
        && floors[f].waiting == Queued(old(floors[f].waiting), spawned)
    {
      spawnTimer := spawnTimer - dt;
      if spawnTimer > 0.0 {
        return null;
      }
      spawnTimer := spawnInterval;
      var f := SpawnFloor(floorPick);
      spawned := BuildSpawn(DetermineNpcType(chaosLevel, r), f, floors[f].y, destPick, patienceDraw, aggressionDraw);
      // The interval is reset after the NPC is queued; the two touch different fields.
      SpawnIntervalRange(chaosLevel);
      spawnInterval := SpawnIntervalFor(chaosLevel);
      var queued := Admit(spawned, f);
    }

    /**
     * `_update_john`: while John is not in play his timer runs down; once
     * it is out he is built on the street floor as `BuildJohn` says and
     * admitted there.
     */
    method UpdateJohn(dt: real, destPick: nat, basePick: nat, baseDraw: real) returns (spawned: Npc?)
      requires Valid() && 10.0 <= baseDraw <= 30.0
      modifies this`john, this`spawnJohnTimer, this`npcs, {floors[0]}`waiting
      ensures Valid()
      ensures old(john) != null ==>
        spawned == null && john == old(john) && spawnJohnTimer == old(spawnJohnTimer) && npcs == old(npcs) && unchanged(floors[0])
      ensures old(john) == null ==> spawnJohnTimer == old(spawnJohnTimer) - dt
      ensures old(john) == null && old(spawnJohnTimer) - dt > 0.0 ==>
        spawned == null && john == null && npcs == old(npcs) && unchanged(floors[0])
      ensures old(john) == null && old(spawnJohnTimer) - dt <= 0.0 ==>
        && spawned != null && fresh(spawned) && john == spawned && npcs == old(npcs) + [spawned]
        && BuiltAsJohn(spawned, destPick) && floors[0].waiting == Queued(old(floors[0].waiting), spawned)
    {
      if john != null {
        return null;
      }
      spawnJohnTimer := spawnJohnTimer - dt;
      if spawnJohnTimer > 0.0 {
        return null;
      }
      spawned := BuildJohn(floors[0].y, destPick, basePick, baseDraw);
      john := spawned;
      var queued := Admit(spawned, 0);
    }

    /**
     * `_update_alan`: while Alan is not in play his timer runs down; once it
     * is out he is built in the robotics lab on floor 4 as `BuildAlan` says
     * and admitted there.
     */
    method UpdateAlan(dt: real, destPick: nat, basePick: nat, baseDraw: real) returns (spawned: Npc?)
      requires Valid() && 10.0 <= baseDraw <= 30.0
      modifies this`alan, this`spawnAlanTimer, this`npcs, {floors[4]}`waiting
      ensures Valid()
      ensures old(alan) != null ==>
        spawned == null && alan == old(alan) && spawnAlanTimer == old(spawnAlanTimer) && npcs == old(npcs) && unchanged(floors[4])
      ensures old(alan) == null ==> spawnAlanTimer == old(spawnAlanTimer) - dt
      ensures old(alan) == null && old(spawnAlanTimer) - dt > 0.0 ==>
        spawned == null && alan == null && npcs == old(npcs) && unchanged(floors[4])
      ensures old(alan) == null && old(spawnAlanTimer) - dt <= 0.0 ==>
        && spawned != null && fresh(spawned) && alan == spawned && npcs == old(npcs) + [spawned]
        && BuiltAsAlan(spawned, destPick) && floors[4].waiting == Queued(old(floors[4].waiting), spawned)
    {
      if alan != null {
        return null;
      }
      spawnAlanTimer := spawnAlanTimer - dt;
      if spawnAlanTimer > 0.0 || 4 !in floors {
        return null;
      }
      spawned := BuildAlan(floors[4].y, destPick, basePick, baseDraw);
      alan := spawned;
      var queued := Admit(spawned, 4);
    }

    /**
     * `_update_escaped_robots`: on a draw below 0.001 an escaped robot is
     * built in the basement as `BuildEscapee` says and admitted there; it is
     * recorded among the escaped robots and chaos rises by 10.
     */
    method UpdateEscapedRobots(draw: real, destPick: nat, basePick: nat, baseDraw: real, aggressionDraw: real)
        returns (spawned: Npc?)
      requires Valid() && 10.0 <= baseDraw <= 30.0 && 0.5 <= aggressionDraw <= 1.0
      modifies this`npcs, this`escapedBadRobots, this`chaosLevel, {floors[-1]}`waiting
      ensures Valid()
      ensures draw >= 0.001 ==>
        && spawned == null && npcs == old(npcs) && escapedBadRobots == old(escapedBadRobots)
        && chaosLevel == old(chaosLevel) && unchanged(floors[-1])
      ensures draw < 0.001 ==>
        && spawned != null && fresh(spawned) && npcs == old(npcs) + [spawned]
        && escapedBadRobots == old(escapedBadRobots) + [spawned] && chaosLevel == Raise(old(chaosLevel), 10.0)
        && BuiltAsEscapee(spawned, destPick) && floors[-1].waiting == Queued(old(floors[-1].waiting), spawned)
    {
      if draw >= 0.001 || -1 !in floors {
        return null;
      }
      spawned := BuildEscapee(floors[-1].y, destPick, basePick, baseDraw, aggressionDraw);
      var queued := Admit(spawned, -1);
      escapedBadRobots := escapedBadRobots + [spawned];
      chaosLevel := Raise(chaosLevel, 10.0);
    }

    /**
     * `_update_game_balance`: chaos and harmony decay, the car's emergency
     * mode follows chaos above 75, and harmony above 75 shortens the spawn
     * interval as `BalancedInterval` says.
     */
    method UpdateGameBalance(dt: real)
      requires Valid() && dt >= 0.0
      modifies this`chaosLevel, this`harmonyLevel, this`spawnInterval, elevator`emergencyMode
      ensures Valid()
      ensures Board() == Decay(old(Board()), dt)
      ensures elevator.emergencyMode <==> chaosLevel > 75.0
      ensures spawnInterval == BalancedInterval(old(spawnInterval), harmonyLevel, dt)
    {
      DecayStaysInRange(Board(), dt);
      chaosLevel := Lower(chaosLevel, dt * 0.5);
      harmonyLevel := Lower(harmonyLevel, dt * 0.3);
      elevator.emergencyMode := chaosLevel > 75.0;
      spawnInterval := BalancedInterval(spawnInterval, harmonyLevel, dt);
    }

    /** The NPCs waiting on some floor. */
    ghost function WaitingNpcs(): set<Npc>
      reads this, floors.Values
    {
      set f, n | f in floors && n in floors[f].waiting :: n
    }

    /** The scene's floors, in the order of the floor table. */
    function Rooms(): (rooms: seq<Floor>)
      reads this
      requires forall f :: ValidFloor(f) ==> f in floors
      ensures |rooms| == |FloorNumbers| && forall j :: 0 <= j < |rooms| ==> FloorNumbers[j] in floors && rooms[j] == floors[FloorNumbers[j]]
    {
      FloorNumbersAreTheValidFloors();
      seq(|FloorNumbers|, j requires 0 <= j < |FloorNumbers| && FloorNumbers[j] in floors reads this => floors[FloorNumbers[j]])
    }

    /** The floors in table order are distinct, valid, and queue nobody twice. */
    lemma RoomsApart()
      requires StateValid()
      ensures NoDuplicates(Rooms()) && QueuesApart(Rooms())
      ensures forall j :: 0 <= j < |Rooms()| ==> Rooms()[j] in floors.Values && Rooms()[j].Valid() && NoDuplicates(Rooms()[j].waiting)
      ensures QueuedIn(Rooms()) <= WaitingNpcs()
    {
      var rooms := Rooms();
      FloorNumbersAreTheValidFloors();
      forall a, b | 0 <= a < b < |rooms|
        ensures rooms[a] != rooms[b]
      {
        assert rooms[a].floorNumber == FloorNumbers[a] < FloorNumbers[b] == rooms[b].floorNumber;
      }
    }

    /**
     * The floor loop of `update` on the scene's floors, taken in the order of
     * the floor table: each queue keeps, in order, the NPCs with patience
     * left after losing `dt`, and every NPC queued anywhere loses `dt` once.
     */
    method UpdateFloors(dt: real)
      requires Valid()
      modifies floors.Values`waiting, WaitingNpcs()`patience
      ensures Valid()
      ensures forall f :: f in floors ==> floors[f].waiting == Filter(old(floors[f].waiting), old(PatientAfter(floors[f].waiting, dt)))
      ensures forall f, n :: f in floors && n in old(floors[f].waiting) ==> n.patience == old(n.patience) - dt
    {
      var rooms := Rooms();
      RoomsApart();
      UpdateQueues(rooms, dt);
      assert unchanged(this, elevator);
      forall f | f in floors
        ensures floors[f].Valid() && NoDuplicates(floors[f].waiting)
        ensures floors[f].waiting == Filter(old(floors[f].waiting), old(PatientAfter(floors[f].waiting, dt)))
        ensures forall n :: n in old(floors[f].waiting) ==> n.patience == old(n.patience) - dt
        ensures forall n :: n in floors[f].waiting ==> n in old(floors[f].waiting)
      {
        var j := IndexOfFloor(f);
        FilterKeepsExactly(old(floors[f].waiting), old(PatientAfter(floors[f].waiting, dt)));
      }
      assert FloorsValid() && QueuesDisjoint() && CarDisjoint();
    }

    /**
     * `_update_npcs`: every NPC in play runs its `update` once; those that
     * time out outside the car leave the list, in order, each costing the
     * penalty of its type; those in the car interact with a fellow
     * passenger.
     */
    method UpdateNpcs(dt: real)
      requires Valid()
      modifies this`npcs, this`score, this`chaosLevel, this`harmonyLevel
      modifies npcs`animationTimer, npcs`animationFrame, npcs`interactionCooldown, npcs`patience, npcs`mood
      modifies elevator.passengers`mood
      ensures Valid()
      ensures npcs == Unflagged(old(npcs), TimeoutFlags(old(Snapshots(npcs)), dt))
      ensures forall k :: 0 <= k < |old(npcs)| ==> old(npcs)[k].patience == PatienceAfter(old(SnapshotOf(npcs[k])), dt)
      ensures Board() == TimeoutPenalties(old(Board()), TimedOutTypes(old(Snapshots(npcs)), dt))
      ensures AllTurned(old(npcs), old(Ticks(npcs, dt)), elevator.passengers)
    {
      ghost var ticks := Ticks(npcs, dt);
      var remaining, board := UpdateAll(npcs, dt, elevator, Board(), ticks);
      assert unchanged(this, elevator) && unchanged(floors.Values);
      ghost var all := npcs;
      KeepPenalties(remaining, board);
      assert AllTurned(all, ticks, elevator.passengers);
    }

    /** The end of `_update_npcs`: the survivors stay in play and the penalties are booked. */
    method KeepPenalties(remaining: seq<Npc>, board: Scoreboard)
      requires Valid() && NoDuplicates(remaining) && InRange(board) && board.delivered == passengersDelivered
      modifies this`npcs, this`score, this`chaosLevel, this`harmonyLevel
      ensures Valid() && npcs == remaining && Board() == board
    {
      npcs := remaining;
      score := board.score;
      chaosLevel := board.chaos;
      harmonyLevel := board.harmony;
    }
  }
}
