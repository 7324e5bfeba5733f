/** One enemy ship (enemy-ship.js): where it spawns, where it wanders, how it turns on the
    player and fires, and its floating health bar. Random draws (`Math.random()`),
    vector lengths and the glTF load are inputs; three.js rotation (`smoothLookAt`) is not
    modelled. */
module EnemyShips {
  import opened Common

  /** Two results of `Math.random()`. */
  datatype Draw = Draw(u: real, v: real)

  predicate IsUnitDraw(d: Draw) {
    0.0 <= d.u < 1.0 && 0.0 <= d.v < 1.0
  }

  /** The rectangle wandering destinations are drawn from. */
  predicate InWanderRegion(p: Vec3) {
    p.y == 0.0 && -200.0 <= p.x < 600.0 && -200.0 <= p.z < 0.0
  }

  /** getDestination: a point on the water (y = 0) in the wandering rectangle. */
  function Destination(d: Draw): (p: Vec3)
    ensures p.y == 0.0
    ensures IsUnitDraw(d) ==> InWanderRegion(p)
  {
    Vec3(d.u * 800.0 - 200.0, 0.0, d.v * 200.0 - 200.0)
  }

  /** getRandomRotation: tilt about x and z by less than a tenth of pi, none about y. */
  function RandomRotation(d: Draw): (r: Vec3)
    ensures r.y == 0.0
    ensures IsUnitDraw(d) ==> -PI * 0.1 <= r.x < PI * 0.1 && -PI * 0.1 <= r.z < PI * 0.1
  {
    Vec3(d.u * PI * 0.2 - PI * 0.1, 0.0, d.v * PI * 0.2 - PI * 0.1)
  }

  // ---------------------------------------------------------------------------
  // Spawn position: rejection sampling

  /** `distanceThreshold` of getRandomPosition. */
  const SpawnSeparation: real := 200.0

  /** One candidate of getRandomPosition: a point of the 800 x 800 square around the origin. */
  function SpawnCandidate(d: Draw): (p: Vec3)
    ensures p.y == 0.0
    ensures IsUnitDraw(d) ==> -400.0 <= p.x < 400.0 && -400.0 <= p.z < 400.0
  {
    Vec3(d.u * 800.0 - 400.0, 0.0, d.v * 800.0 - 400.0)
  }

  /** `isItTooCloseToOtherEnemies`. */
  predicate TooCloseToOthers(p: Vec3, others: seq<Vec3>) {
    exists i :: 0 <= i < |others| && CloserThan(p, others[i], SpawnSeparation)
  }

  /** A candidate is kept when it is neither too close to another enemy nor to the centre. */
  predicate SpawnAcceptable(p: Vec3, others: seq<Vec3>) {
    !TooCloseToOthers(p, others) && !CloserThan(p, Origin, SpawnSeparation)
  }

  /** getRandomPosition, fed a finite supply of candidate draws: it keeps the first
      acceptable candidate. `None` means the supply ran out, where the source would go on
      recursing. */
  function SpawnPosition(others: seq<Vec3>, draws: seq<Draw>): (r: Option<Vec3>)
    ensures r.Some? ==>
      exists k :: 0 <= k < |draws| && r.value == SpawnCandidate(draws[k])
        && SpawnAcceptable(r.value, others)
        && forall j :: 0 <= j < k ==> !SpawnAcceptable(SpawnCandidate(draws[j]), others)
    ensures r.None? <==> forall k :: 0 <= k < |draws| ==> !SpawnAcceptable(SpawnCandidate(draws[k]), others)
    decreases |draws|
  {
    if draws == [] then None
    else
      var p := SpawnCandidate(draws[0]);
      if TooCloseToOthers(p, others) || CloserThan(p, Origin, SpawnSeparation) then
        var rest := SpawnPosition(others, draws[1..]);
        assert forall k :: 1 <= k < |draws| ==> draws[k] == draws[1..][k - 1];
        rest
      else Some(p)
  }

  /** What getRandomPosition promises when it returns: a point on the water inside the
      square, at least 200 away from every other enemy and from the origin. */
  lemma SpawnPositionIsSeparated(others: seq<Vec3>, draws: seq<Draw>)
    requires forall k :: 0 <= k < |draws| ==> IsUnitDraw(draws[k])
    requires SpawnPosition(others, draws).Some?
    ensures var p := SpawnPosition(others, draws).value;
      && p.y == 0.0 && -400.0 <= p.x < 400.0 && -400.0 <= p.z < 400.0
      && (forall i :: 0 <= i < |others| ==> NormSq(Sub(p, others[i])) >= SpawnSeparation * SpawnSeparation)
      && NormSq(Sub(p, Origin)) >= SpawnSeparation * SpawnSeparation
  {
    var p := SpawnPosition(others, draws).value;
    var k :| 0 <= k < |draws| && p == SpawnCandidate(draws[k]) && SpawnAcceptable(p, others);
    assert IsUnitDraw(draws[k]);
  }

  // ---------------------------------------------------------------------------
  // Health bar

  /** Scale and x-offset of the green and red bars (each a unit-wide box). */
  datatype HealthBars = HealthBars(greenScale: real, greenX: real, redScale: real, redX: real)

  /** updateHealthBar's layout for a health value p = health/100: the green bar is p wide
      and starts at -1/2, the red bar fills the rest up to 1/2, and the two meet at
      p - 1/2. */
  function HealthBarLayout(health: int): (b: HealthBars)
    ensures var p := health as real / 100.0;
      && b.greenScale == p
      && b.greenScale + b.redScale == 1.0
      && b.greenX - b.greenScale / 2.0 == -0.5
      && b.greenX + b.greenScale / 2.0 == p - 0.5
      && b.redX - b.redScale / 2.0 == p - 0.5
      && b.redX + b.redScale / 2.0 == 0.5
  {
    var p := health as real / 100.0;
    HealthBars(p, (p - 1.0) / 2.0, 1.0 - p, p / 2.0)
  }

  // ---------------------------------------------------------------------------
  // Movement and firing, as functions of the moving part of the ship's state

  const ShipSpeed: real := 10.0
  const ArrivalRadius: real := 0.1
  const StandoffDistance: real := 200.0
  const FireInterval: real := 4.0
  /** Both ends of an enemy shot are raised 10 units above the water. */
  const ShotRaise: real := 10.0

  /** The part of an enemy ship one tick of movement changes. */
  datatype Motion = Motion(position: Vec3, destination: Option<Vec3>, lastFireTime: real)

  /** Per-tick inputs of one ship: the draw used if no destination is set yet, the draw
      used on arrival, and the length of the direction vector the ship steers along. */
  datatype MoveInput = MoveInput(first: Draw, arrival: Draw, dist: real)

  /** The two end points of an enemy shot (the cannon ball is then loaded asynchronously). */
  datatype ShotRequest = ShotRequest(from: Vec3, to: Vec3)

  function Raised(p: Vec3): Vec3 {
    Vec3(p.x, p.y + ShotRaise, p.z)
  }

  /** The destination a wandering ship steers to this tick. */
  function WanderTarget(m: Motion, inp: MoveInput): Vec3 {
    if m.destination.Some? then m.destination.value else Destination(inp.first)
  }

  /** `position + normalize(target - position) * speed * deltaTime`, with `dist` the
      length of `target - position`. */
  function Steer(position: Vec3, target: Vec3, dist: real, deltaTime: real): Vec3
    requires dist > 0.0
  {
    Add(position, Scale(ShipSpeed * deltaTime / dist, Sub(target, position)))
  }

  /** wanderAround. Afterwards a destination is always set; within 0.1 of it the ship
      draws a new one and does not move; otherwise it keeps its destination (drawn first
      if there was none) and moves. With unit draws the destination stays in the
      wandering rectangle. */
  function Wander(m: Motion, inp: MoveInput, deltaTime: real): (r: Motion)
    ensures r.destination.Some? && r.lastFireTime == m.lastFireTime
    ensures inp.dist < ArrivalRadius ==> r.position == m.position && r.destination == Some(Destination(inp.arrival))
    ensures inp.dist >= ArrivalRadius ==> r.destination == Some(WanderTarget(m, inp))
    ensures m.destination.Some? && inp.dist >= ArrivalRadius ==> r.destination == m.destination
    ensures IsUnitDraw(inp.first) && IsUnitDraw(inp.arrival) && (m.destination.Some? ==> InWanderRegion(m.destination.value))
            ==> InWanderRegion(r.destination.value)
  {
    var target := WanderTarget(m, inp);
    if inp.dist < ArrivalRadius then m.(destination := Some(Destination(inp.arrival)))
    else m.(destination := Some(target), position := Steer(m.position, target, inp.dist, deltaTime))
  }

  /** attackToPlayer, with `registered` the manager's answer to isEnemyExists(id). The
      fire cooldown advances only when the ship is registered and within 200 of the
      player; the ship fires exactly when the timer reaches 4, and then resets it to 0;
      so a timer below 4 stays below 4. An unregistered ship changes nothing. */
  function Attack(m: Motion, registered: bool, playerPosition: Vec3, dist: real, deltaTime: real): (res: (Motion, Option<ShotRequest>))
    ensures var (r, shot) := res;
      && (shot.Some? <==> registered && dist <= StandoffDistance && m.lastFireTime + deltaTime >= FireInterval)
      && (shot.Some? ==> r.lastFireTime == 0.0 && r.position == m.position
                         && shot.value == ShotRequest(Raised(m.position), Raised(playerPosition)))
      && (registered && dist <= StandoffDistance && shot.None? ==> r.lastFireTime == m.lastFireTime + deltaTime)
      && (!(registered && dist <= StandoffDistance) ==> r.lastFireTime == m.lastFireTime)
      && (registered && dist <= StandoffDistance ==> r.position == m.position)
      && (m.lastFireTime < FireInterval ==> r.lastFireTime < FireInterval)
      && r.destination == m.destination
      && (!registered ==> r == m)
  {
    if !registered then (m, None)
    else if dist > StandoffDistance then
      (m.(position := Steer(m.position, playerPosition, dist, deltaTime)), None)
    else
      var timer := m.lastFireTime + deltaTime;
      if timer >= FireInterval then
        (m.(lastFireTime := 0.0), Some(ShotRequest(Raised(m.position), Raised(playerPosition))))
      else (m.(lastFireTime := timer), None)
  }

  /** updateMovement: nothing without a model; wander while not hostile, attack once hostile. */
  function MovementStep(m: Motion, hasModel: bool, hostile: bool, registered: bool,
                        playerPosition: Vec3, inp: MoveInput, deltaTime: real): (Motion, Option<ShotRequest>) {
    if !hasModel then (m, None)
    else if !hostile then (Wander(m, inp, deltaTime), None)
    else Attack(m, registered, playerPosition, inp.dist, deltaTime)
  }

  /** The input describes this tick truthfully: `dist` is the length of the vector the
      ship steers along (to its destination while wandering, to the player once hostile). */
  predicate InputFits(m: Motion, hostile: bool, playerPosition: Vec3, inp: MoveInput) {
    if hostile then IsLengthOf(inp.dist, Sub(playerPosition, m.position))
    else IsLengthOf(inp.dist, Sub(WanderTarget(m, inp), m.position))
  }

  /** With a truthful input, a wandering ship that has not arrived and does not
      overshoot ends the tick exactly `speed * deltaTime` closer to its destination. */
  lemma WanderApproaches(m: Motion, inp: MoveInput, deltaTime: real)
    requires InputFits(m, false, Origin, inp) && inp.dist >= ArrivalRadius
    requires 0.0 <= ShipSpeed * deltaTime <= inp.dist
    ensures var r := Wander(m, inp, deltaTime);
      IsLengthOf(inp.dist - ShipSpeed * deltaTime, Sub(r.destination.value, r.position))
  {
    SteerApproaches(m.position, WanderTarget(m, inp), inp.dist, deltaTime);
  }

  /** With a truthful input, a registered hostile ship out of range closes in on the
      player by exactly `speed * deltaTime` (when that does not overshoot). */
  lemma AttackApproaches(m: Motion, playerPosition: Vec3, inp: MoveInput, deltaTime: real)
    requires InputFits(m, true, playerPosition, inp) && inp.dist > StandoffDistance
    requires 0.0 <= ShipSpeed * deltaTime <= inp.dist
    ensures var (r, shot) := Attack(m, true, playerPosition, inp.dist, deltaTime);
      shot.None? && IsLengthOf(inp.dist - ShipSpeed * deltaTime, Sub(playerPosition, r.position))
  {
    SteerApproaches(m.position, playerPosition, inp.dist, deltaTime);
  }

  /** A step of `speed * deltaTime` toward a target `dist` away, not overshooting it,
      leaves the ship exactly `dist - speed * deltaTime` from the target. */
  lemma SteerApproaches(position: Vec3, target: Vec3, dist: real, deltaTime: real)
    requires IsLengthOf(dist, Sub(target, position)) && dist > 0.0
    requires 0.0 <= ShipSpeed * deltaTime <= dist
    ensures IsLengthOf(dist - ShipSpeed * deltaTime, Sub(target, Steer(position, target, dist, deltaTime)))
  {
    var k := ShipSpeed * deltaTime / dist;
    var d := Sub(target, position);
    var rest := Sub(target, Steer(position, target, dist, deltaTime));
    assert rest == Scale(1.0 - k, d);
    NormSqScale(1.0 - k, d);
    assert (1.0 - k) * dist == dist - ShipSpeed * deltaTime;
    calc {
      NormSq(rest);
      (1.0 - k) * (1.0 - k) * (dist * dist);
      ((1.0 - k) * dist) * ((1.0 - k) * dist);
      (dist - ShipSpeed * deltaTime) * (dist - ShipSpeed * deltaTime);
    }
  }

  lemma NormSqScale(k: real, v: Vec3)
    ensures NormSq(Scale(k, v)) == k * k * NormSq(v)
  {
    assert (k * v.x) * (k * v.x) == k * k * (v.x * v.x);
    assert (k * v.y) * (k * v.y) == k * k * (v.y * v.y);
    assert (k * v.z) * (k * v.z) == k * k * (v.z * v.z);
  }

  /** A run of attack ticks of a registered ship, each given as (distance to the player,
      deltaTime): the final motion and the number of shots fired. */
  function AttackRun(m: Motion, playerPosition: Vec3, ticks: seq<(real, real)>): (Motion, nat)
    decreases |ticks|
  {
    if ticks == [] then (m, 0)
    else
      var (next, shot) := Attack(m, true, playerPosition, ticks[0].0, ticks[0].1);
      var (last, shots) := AttackRun(next, playerPosition, ticks[1..]);
      (last, shots + (if shot.Some? then 1 else 0))
  }

  /** Time spent within the standoff distance over a run of ticks. */
  function InRangeTime(ticks: seq<(real, real)>): real
    decreases |ticks|
  {
    if ticks == [] then 0.0
    else (if ticks[0].0 <= StandoffDistance then ticks[0].1 else 0.0) + InRangeTime(ticks[1..])
  }

  /** Over any run of attack ticks the timer stays below 4, and the shots are paced:
      each one costs four seconds spent in range, so the initial timer plus the time in
      range covers four seconds per shot plus the final timer. */
  lemma {:induction false} ShotsArePaced(m: Motion, playerPosition: Vec3, ticks: seq<(real, real)>)
    requires m.lastFireTime < FireInterval
    ensures var (last, shots) := AttackRun(m, playerPosition, ticks);
      && last.lastFireTime < FireInterval
      && m.lastFireTime + InRangeTime(ticks) >= FireInterval * shots as real + last.lastFireTime
    decreases |ticks|
  {
    if ticks != [] {
      var (next, shot) := Attack(m, true, playerPosition, ticks[0].0, ticks[0].1);
      ShotsArePaced(next, playerPosition, ticks[1..]);
    }
  }

  // ---------------------------------------------------------------------------
  // The ship object

  /** The part of a ship that movement does not change. */
  datatype Status = Status(health: int, isHostile: bool, animations: Option<seq<nat>>, hasModel: bool,
                           healthBars: Option<HealthBars>, inScene: bool, hasMixer: bool)

  class EnemyShip {
    /** `new Date().getTime()` at construction: not guaranteed unique. */
    const id: int
    var health: int
    var isHostile: bool
    /** `this.animations`: `None` would be a falsy value; the source only ever stores
        arrays, which are truthy even when empty. */
    var animations: Option<seq<nat>>
    /** Whether `this.model` has been set by the glTF load. */
    var hasModel: bool
    /** `this.model.position` (meaningful once `hasModel`). */
    var position: Vec3
    var destination: Option<Vec3>
    /** `this.lastFireTime`; undefined and 0 are treated alike by the source. */
    var lastFireTime: real
    /** The green and red bar meshes, present once `addHealthBar` has run. */
    var healthBars: Option<HealthBars>
    /** Whether the model has been added to the scene and not removed since. */
    var inScene: bool
    /** Whether `removeEnemy` has created a death-animation mixer (with its listener). */
    var hasMixer: bool

    function CurrentMotion(): Motion
      reads this
    {
      Motion(position, destination, lastFireTime)
    }

    function CurrentStatus(): Status
      reads this
    {
      Status(health, isHostile, animations, hasModel, healthBars, inScene, hasMixer)
    }

    /** The constructor: full health, not hostile, an empty animation list, no model yet. */
    constructor (id: int)
      ensures this.id == id && health == 100 && !isHostile && animations == Some([])
      ensures !hasModel && destination.None? && lastFireTime == 0.0
      ensures healthBars.None? && !inScene && !hasMixer
    {
      this.id := id;
      health, isHostile, animations := 100, false, Some([]);
      hasModel, position, destination, lastFireTime := false, Origin, None, 0.0;
      healthBars, inScene, hasMixer := None, false, false;
    }

    /** updateHealthBar: nothing without bars; otherwise lay them out for the health. */
    method UpdateHealthBar()
      modifies this`healthBars
      ensures healthBars == if old(healthBars).None? then None else Some(HealthBarLayout(health))
    {
      if healthBars.None? {
        return;
      }
      healthBars := Some(HealthBarLayout(health));
    }

    /** The load callback of addShip: store the model and its clips, place the ship at
        the first acceptable candidate, add it to the scene with its health bar.
        `placed` is false when the draws ran out before a candidate was accepted: the
        source's recursion then does not return, so nothing after it happens. */
    method AddShip(clips: seq<nat>, loadedPosition: Vec3, others: seq<Vec3>, draws: seq<Draw>) returns (placed: bool)
      modifies this
      ensures hasModel && animations == Some(clips)
      ensures placed <==> SpawnPosition(others, draws).Some?
      ensures placed ==> position == SpawnPosition(others, draws).value && inScene
                         && healthBars == Some(HealthBarLayout(health))
      ensures !placed ==> position == loadedPosition && inScene == old(inScene) && healthBars == old(healthBars)
      ensures health == old(health) && isHostile == old(isHostile) && hasMixer == old(hasMixer)
      ensures destination == old(destination) && lastFireTime == old(lastFireTime)
    {
      hasModel := true;
      position := loadedPosition;
      animations := Some(clips);
      var spot := SpawnPosition(others, draws);
      if spot.None? {
        return false;
      }
      position := spot.value;
      inScene := true;
      healthBars := Some(HealthBarLayout(health));
      placed := true;
    }

    /** wanderAround (called only for a ship with a model). */
    method WanderAround(deltaTime: real, inp: MoveInput)
      requires hasModel
      modifies this`position, this`destination
      ensures CurrentMotion() == Wander(old(CurrentMotion()), inp, deltaTime)
    {
      if destination.None? {
        destination := Some(Destination(inp.first));
      }
      if inp.dist < ArrivalRadius {
        destination := Some(Destination(inp.arrival));
        return;
      }
      position := Steer(position, destination.value, inp.dist, deltaTime);
    }

    /** attackToPlayer, given the manager's answer to isEnemyExists(id). */
    method AttackToPlayer(deltaTime: real, registered: bool, playerPosition: Vec3, dist: real) returns (shot: Option<ShotRequest>)
      requires hasModel
      modifies this`position, this`lastFireTime
      ensures (CurrentMotion(), shot) == Attack(old(CurrentMotion()), registered, playerPosition, dist, deltaTime)
    {
      if !registered {
        return None;
      }
      if dist > StandoffDistance {
        position := Steer(position, playerPosition, dist, deltaTime);
        return None;
      }
      lastFireTime := lastFireTime + deltaTime;
      shot := None;
      if lastFireTime >= FireInterval {
        shot := Some(ShotRequest(Raised(position), Raised(playerPosition)));
        lastFireTime := 0.0;
      }
    }

    /** updateMovement. */
    method UpdateMovement(deltaTime: real, registered: bool, playerPosition: Vec3, inp: MoveInput) returns (shot: Option<ShotRequest>)
      modifies this`position, this`destination, this`lastFireTime
      ensures (CurrentMotion(), shot) == MovementStep(old(CurrentMotion()), hasModel, isHostile, registered, playerPosition, inp, deltaTime)
    {
      if !hasModel {
        return None;
      }
      if !isHostile {
        WanderAround(deltaTime, inp);
        shot := None;
      } else {
        shot := AttackToPlayer(deltaTime, registered, playerPosition, inp.dist);
      }
    }
  }
}
