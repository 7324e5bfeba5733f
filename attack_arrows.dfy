/** The player's aiming arrow and cannon shot (attack-arrow.js): a tube mesh along a
    curve of points attached to the player's ship, steered by the camera, and a cannon
    ball that flies along the curve extended by twenty collinear points, hitting at most
    one enemy ship. Curve lengths, distances and the cosine and sine of the steering
    angle are inputs; the glTF load and the frame timing are explicit calls. */
module AttackArrows {
  import opened Common
  import opened EnemyShips
  import opened Fleet
  import opened Frames

  /** How many points the shot's path adds beyond the arrow's last point. */
  const ExtensionCount: nat := 20
  /** `speed` of the player's cannon ball, in units per second. */
  const ArrowShotSpeed: real := 20.0
  /** A cannon ball closer than this to an enemy hits it. */
  const HitThreshold: real := 50.0
  const HitDamage: int := 10

  // ---------------------------------------------------------------------------
  // Path extension

  /** Vector3.normalize(): divided by its length, or left as it is (the zero vector)
      when the length is 0. */
  function Normalized(v: Vec3, len: real): Vec3 {
    if len == 0.0 then v else Scale(1.0 / len, v)
  }

  /** Extension point `i`: `last + normalize(last - secondLast) * (segmentLength * i)`. */
  function ExtensionPoint(last: Vec3, secondLast: Vec3, segmentLength: real, i: nat): Vec3 {
    Add(last, Scale(segmentLength * i as real, Normalized(Sub(last, secondLast), segmentLength)))
  }

  /** Only the zero vector has squared length 0. */
  lemma NormSqZero(v: Vec3)
    requires NormSq(v) == 0.0
    ensures v == Origin
  {
    SquarePositive(v.x);
    SquarePositive(v.y);
    SquarePositive(v.z);
  }

  lemma SquarePositive(x: real)
    ensures x * x >= 0.0
    ensures x * x == 0.0 ==> x == 0.0
  {
    if x > 0.0 {
      MulStrict(0.0, x);
    } else if x < 0.0 {
      MulStrict(0.0, -x);
      assert (-x) * (-x) == x * x;
    }
  }

  /** When `segmentLength` is the distance between the two points, extension point `i`
      is `last + i * (last - secondLast)`: the new points continue the last segment in
      equal steps. */
  lemma ExtensionPointIsCollinear(last: Vec3, secondLast: Vec3, segmentLength: real, i: nat)
    requires IsLengthOf(segmentLength, Sub(last, secondLast))
    ensures ExtensionPoint(last, secondLast, segmentLength, i) == Add(last, Scale(i as real, Sub(last, secondLast)))
  {
    var v := Sub(last, secondLast);
    if segmentLength == 0.0 {
      NormSqZero(v);
      ScaleOrigin(segmentLength * i as real);
      ScaleOrigin(i as real);
    } else {
      var k := segmentLength * i as real;
      ScaleScale(k, 1.0 / segmentLength, v);
      assert k * (1.0 / segmentLength) == i as real;
      assert Scale(k, Normalized(v, segmentLength)) == Scale(i as real, v);
    }
  }

  lemma ScaleOrigin(k: real)
    ensures Scale(k, Origin) == Origin
  {
  }

  lemma ScaleScale(a: real, b: real, v: Vec3)
    ensures Scale(a, Scale(b, v)) == Scale(a * b, v)
  {
    assert a * (b * v.x) == (a * b) * v.x;
    assert a * (b * v.y) == (a * b) * v.y;
    assert a * (b * v.z) == (a * b) * v.z;
  }

  /** The shot's path: the arrow's points followed by twenty extension points (see
      ExtensionPointIsCollinear and ExtensionPointDegenerate for where they lie). */
  method ExtendPath(points: seq<Vec3>, segmentLength: real) returns (extended: seq<Vec3>)
    requires |points| >= 2
    ensures |extended| == |points| + ExtensionCount
    ensures extended[..|points|] == points
    ensures forall k :: |points| <= k < |extended| ==>
              extended[k] == ExtensionPoint(points[|points| - 1], points[|points| - 2], segmentLength, k - |points| + 1)
  {
    var last := points[|points| - 1];
    var secondLast := points[|points| - 2];
    extended := points;
    for i := 1 to ExtensionCount + 1
      invariant |extended| == |points| + i - 1
      invariant extended[..|points|] == points
      invariant forall k :: |points| <= k < |extended| ==> extended[k] == ExtensionPoint(last, secondLast, segmentLength, k - |points| + 1)
    {
      extended := extended + [ExtensionPoint(last, secondLast, segmentLength, i)];
    }
  }

  /** When the last two points coincide the direction is the zero vector, which
      normalize() leaves as it is, so every extension point is the last point. */
  lemma ExtensionPointDegenerate(last: Vec3, segmentLength: real, i: nat)
    ensures ExtensionPoint(last, last, segmentLength, i) == last
  {
    assert Sub(last, last) == Origin;
    if segmentLength != 0.0 {
      ScaleOrigin(1.0 / segmentLength);
    }
    ScaleOrigin(segmentLength * i as real);
  }

  // ---------------------------------------------------------------------------
  // Steering the arrow

  /** Matrix4.makeRotationY with the given cosine and sine, applied to `v`. */
  function RotateY(v: Vec3, c: real, s: real): Vec3 {
    Vec3(c * v.x + s * v.z, v.y, -s * v.x + c * v.z)
  }

  /** A rotation (cosine and sine of one angle) keeps lengths. */
  lemma RotateYKeepsLength(v: Vec3, c: real, s: real)
    requires c * c + s * s == 1.0
    ensures NormSq(RotateY(v, c, s)) == NormSq(v)
  {
    var r := RotateY(v, c, s);
    assert r.x * r.x == c * c * (v.x * v.x) + 2.0 * c * s * (v.x * v.z) + s * s * (v.z * v.z);
    assert r.z * r.z == s * s * (v.x * v.x) - 2.0 * c * s * (v.x * v.z) + c * c * (v.z * v.z);
    assert r.x * r.x + r.z * r.z == (c * c + s * s) * (v.x * v.x) + (c * c + s * s) * (v.z * v.z);
  }

  /** `Math.max(0.1, 1 - polarDelta * 5)`. */
  function AimScale(polarDelta: real): (f: real)
    ensures f >= 0.1
    ensures f == 0.1 || f == 1.0 - polarDelta * 5.0
    ensures f >= 1.0 - polarDelta * 5.0
  {
    Max(0.1, 1.0 - polarDelta * 5.0)
  }

  /** The new last point: the last segment, turned about the vertical axis and scaled,
      hung from the second-last point. */
  function AimedPoint(secondLast: Vec3, last: Vec3, c: real, s: real, polarDelta: real): Vec3 {
    Add(secondLast, Scale(AimScale(polarDelta), RotateY(Sub(last, secondLast), c, s)))
  }

  /** The points `update` hands to updateCurve: every point but the last as it was, then
      the new last point. */
  function AimedPoints(ps: seq<Vec3>, c: real, s: real, polarDelta: real): (r: seq<Vec3>)
    requires |ps| >= 2
    ensures |r| == |ps| && r[..|ps| - 1] == ps[..|ps| - 1]
  {
    ps[..|ps| - 1] + [AimedPoint(ps[|ps| - 2], ps[|ps| - 1], c, s, polarDelta)]
  }

  /** With a true rotation, the last segment's squared length is multiplied by the
      square of the scale factor, so the segment keeps at least a tenth of its length. */
  lemma AimedSegmentLength(ps: seq<Vec3>, c: real, s: real, polarDelta: real)
    requires |ps| >= 2 && c * c + s * s == 1.0
    ensures var r := AimedPoints(ps, c, s, polarDelta);
      var before := NormSq(Sub(ps[|ps| - 1], ps[|ps| - 2]));
      var after := NormSq(Sub(r[|ps| - 1], r[|ps| - 2]));
      && after == AimScale(polarDelta) * AimScale(polarDelta) * before
      && after >= 0.01 * before
  {
    var r := AimedPoints(ps, c, s, polarDelta);
    var v := Sub(ps[|ps| - 1], ps[|ps| - 2]);
    var f := AimScale(polarDelta);
    var w := RotateY(v, c, s);
    assert r[|ps| - 2] == ps[|ps| - 2];
    assert Sub(r[|ps| - 1], r[|ps| - 2]) == Scale(f, w);
    NormSqScale(f, w);
    RotateYKeepsLength(v, c, s);
    assert NormSq(v) >= 0.0;
    MulMono(0.1, f);
    assert f * f * NormSq(v) >= 0.01 * NormSq(v);
  }

  /** A camera that has not moved since the last update leaves the arrow as it is. */
  lemma AimedPointsStill(ps: seq<Vec3>)
    requires |ps| >= 2
    ensures AimedPoints(ps, 1.0, 0.0, 0.0) == ps
  {
    var v := Sub(ps[|ps| - 1], ps[|ps| - 2]);
    assert RotateY(v, 1.0, 0.0) == v;
    assert Add(ps[|ps| - 2], Scale(1.0, v)) == ps[|ps| - 1];
    assert ps == ps[..|ps| - 1] + [ps[|ps| - 1]];
  }

  /** `if (!previous) previous = current`: 0 (or undefined) counts as not set. */
  function Reset(previous: real, current: real): real {
    if previous == 0.0 then current else previous
  }

  // ---------------------------------------------------------------------------
  // The arrow object

  /** A tube mesh built along a curve of points, identified by a serial number. */
  datatype Mesh = Mesh(id: nat, curve: seq<Vec3>)

  function MeshIds(m: Option<Mesh>): set<nat> {
    if m.Some? then {m.value.id} else {}
  }

  class AttackArrow {
    /** `this.points`: undefined (None) until updateCurve first runs. */
    var points: Option<seq<Vec3>>
    var curveMesh: Option<Mesh>
    /** The arrow meshes that are children of the ship's model. */
    var attached: set<nat>
    /** The arrow meshes whose geometry has been disposed. */
    var disposed: set<nat>
    /** How many meshes have been built. */
    var meshCount: nat
    /** `previousRotation` and `previousPolarAngle`; 0 stands for undefined too. */
    var previousRotation: real
    var previousPolarAngle: real
    /** Cannon-ball loads started by fireCannonBall. */
    var loadsStarted: nat

    ghost predicate Valid()
      reads this
    {
      && attached <= MeshIds(curveMesh)
      && attached !! disposed
      && (curveMesh.Some? ==> curveMesh.value.id < meshCount)
      && (forall id :: id in disposed ==> id < meshCount)
    }

    /** The constructor: no points, no mesh, no previous angles. */
    constructor ()
      ensures Valid()
      ensures points.None? && curveMesh.None? && attached == {} && disposed == {} && meshCount == 0
      ensures previousRotation == 0.0 && previousPolarAngle == 0.0 && loadsStarted == 0
    {
      points, curveMesh, attached, disposed, meshCount := None, None, {}, {}, 0;
      previousRotation, previousPolarAngle, loadsStarted := 0.0, 0.0, 0;
    }

    /** createCurve: the previous mesh, if any, is taken off the ship and disposed before
        the new mesh along `ps` is built and attached; afterwards exactly the new mesh is
        attached. */
    method CreateCurve(ps: seq<Vec3>)
      requires Valid() && points == Some(ps)
      modifies this`curveMesh, this`attached, this`disposed, this`meshCount
      ensures Valid()
      ensures curveMesh == Some(Mesh(old(meshCount), ps)) && meshCount == old(meshCount) + 1
      ensures attached == {old(meshCount)}
      ensures disposed == old(disposed) + MeshIds(old(curveMesh))
    {
      if curveMesh.Some? {
        attached := attached - {curveMesh.value.id};
        disposed := disposed + {curveMesh.value.id};
      }
      var mesh := Mesh(meshCount, ps);
      meshCount := meshCount + 1;
      curveMesh := Some(mesh);
      attached := attached + {mesh.id};
    }

    /** updateCurve: store exactly the given points and rebuild the mesh along them. */
    method UpdateCurve(ps: seq<Vec3>)
      requires Valid()
      modifies this`points, this`curveMesh, this`attached, this`disposed, this`meshCount
      ensures Valid()
      ensures points == Some(ps) && curveMesh == Some(Mesh(old(meshCount), ps))
      ensures attached == {old(meshCount)} && meshCount == old(meshCount) + 1
      ensures disposed == old(disposed) + MeshIds(old(curveMesh))
    {
      points := Some(ps);
      CreateCurve(ps);
    }

    /** The part of Player.removeAttackArrow that acts on the arrow: its mesh leaves the
        ship and is disposed. */
    method RemoveMesh()
      requires Valid()
      modifies this`attached, this`disposed
      ensures Valid()
      ensures attached == {} && disposed == old(disposed) + MeshIds(curveMesh)
    {
      if curveMesh.Some? {
        attached := attached - {curveMesh.value.id};
        disposed := disposed + {curveMesh.value.id};
      }
    }

    /** update(cameraAzimuthAngle, cameraPolarAngle): unset previous angles are taken
        from the inputs; the last point is turned by the azimuth change (`trig` gives the
        cosine and sine of an angle) and its segment scaled by the polar change; the
        previous angles then become the inputs. Without at least two points the source
        reads an undefined point and throws, after the resets. */
    method Update(cameraAzimuthAngle: real, cameraPolarAngle: real, trig: real -> (real, real)) returns (outcome: Completion)
      requires Valid()
      modifies this`points, this`curveMesh, this`attached, this`disposed, this`meshCount
      modifies this`previousRotation, this`previousPolarAngle
      ensures Valid()
      ensures outcome == Normal <==> old(points).Some? && |old(points).value| >= 2
      ensures outcome == Normal ==>
                var rotationDelta := cameraAzimuthAngle - Reset(old(previousRotation), cameraAzimuthAngle);
                var polarDelta := cameraPolarAngle - Reset(old(previousPolarAngle), cameraPolarAngle);
                && points == Some(AimedPoints(old(points).value, trig(rotationDelta).0, trig(rotationDelta).1, polarDelta))
                && curveMesh.Some? && attached == {curveMesh.value.id}
                && previousRotation == cameraAzimuthAngle && previousPolarAngle == cameraPolarAngle
      ensures outcome == Thrown ==>
                && points == old(points) && curveMesh == old(curveMesh) && attached == old(attached)
                && previousRotation == Reset(old(previousRotation), cameraAzimuthAngle)
                && previousPolarAngle == Reset(old(previousPolarAngle), cameraPolarAngle)
    {
      if previousRotation == 0.0 {
        previousRotation := cameraAzimuthAngle;
      }
      if previousPolarAngle == 0.0 {
        previousPolarAngle := cameraPolarAngle;
      }
      if points.None? || |points.value| < 2 {
        return Thrown;
      }
      var rotationDelta := cameraAzimuthAngle - previousRotation;
      var polarDelta := cameraPolarAngle - previousPolarAngle;
      var ps := points.value;
      var (c, s) := trig(rotationDelta);
      var newLast := AimedPoint(ps[|ps| - 2], ps[|ps| - 1], c, s, polarDelta);
      UpdateCurve(ps[..|ps| - 1] + [newLast]);
      previousRotation := cameraAzimuthAngle;
      previousPolarAngle := cameraPolarAngle;
      outcome := Normal;
    }

    /** fireCannonBall: starts the cannon-ball load; the shot begins in CannonBallLoaded. */
    method FireCannonBall()
      modifies this`loadsStarted
      ensures loadsStarted == old(loadsStarted) + 1
    {
      loadsStarted := loadsStarted + 1;
    }

    /** The load callback of fireCannonBall: the path is the arrow's points extended by
        twenty points, the flight lasts `min(totalLength / 20, 6)` seconds for the
        supplied length of the path's curve, and the first frame is requested.
        `segmentLength` is the distance between the last two points; the added points
        then continue the last segment in equal steps. Without two points the source
        reads an undefined point and throws. */
    method CannonBallLoaded(frames: FrameRegistry, segmentLength: real, totalLength: real) returns (outcome: Completion, shot: PlayerShot?)
      requires frames.Valid()
      requires points.Some? && |points.value| >= 2 ==>
                 IsLengthOf(segmentLength, Sub(points.value[|points.value| - 1], points.value[|points.value| - 2]))
      modifies frames
      ensures frames.Valid()
      ensures outcome == Normal <==> points.Some? && |points.value| >= 2
      ensures outcome == Thrown ==> shot == null && unchanged(frames)
      ensures outcome == Normal ==>
                && shot != null && fresh(shot) && shot.Valid()
                && |shot.path| == |points.value| + ExtensionCount && shot.path[..|points.value|] == points.value
                && shot.totalDuration == FlightDuration(totalLength, ArrowShotSpeed)
                && !shot.isHit && shot.startTime.None? && shot.ballAttached
                && shot.pending.Some? && shot.pending.value !in old(frames.scheduled)
                && frames.rafHandles == old(frames.rafHandles) + {shot.pending.value}
      ensures outcome == Normal ==>
                var ps := points.value;
                forall k :: |ps| <= k < |shot.path| ==>
                  shot.path[k] == Add(ps[|ps| - 1], Scale((k - |ps| + 1) as real, Sub(ps[|ps| - 1], ps[|ps| - 2])))
    {
      if points.None? || |points.value| < 2 {
        return Thrown, null;
      }
      var ps := points.value;
      var extended := ExtendPath(ps, segmentLength);
      forall k | |ps| <= k < |extended|
        ensures extended[k] == Add(ps[|ps| - 1], Scale((k - |ps| + 1) as real, Sub(ps[|ps| - 1], ps[|ps| - 2])))
      {
        ExtensionPointIsCollinear(ps[|ps| - 1], ps[|ps| - 2], segmentLength, k - |ps| + 1);
      }
      shot := new PlayerShot(extended, FlightDuration(totalLength, ArrowShotSpeed));
      var id := frames.Request();
      shot.pending := Some(id);
      outcome := Normal;
    }
  }

  // ---------------------------------------------------------------------------
  // The player's cannon shot

  /** The first index whose distance is below the limit, or |ds| if there is none. */
  function FirstBelow(ds: seq<real>, limit: real): (r: nat)
    ensures r <= |ds|
    ensures forall j :: 0 <= j < r ==> ds[j] >= limit
    ensures r < |ds| ==> ds[r] < limit
    decreases |ds|
  {
    if ds == [] then 0
    else if ds[0] < limit then 0
    else
      var rest := FirstBelow(ds[1..], limit);
      assert forall j :: 1 <= j < |ds| ==> ds[j] == ds[1..][j - 1];
      1 + rest
  }

  /** The ships before index `n` all have their models. */
  ghost predicate LoadedBefore(es: seq<EnemyShip>, n: nat)
    reads es`hasModel
  {
    forall j :: 0 <= j < n && j < |es| ==> es[j].hasModel
  }

  /** The ship a frame's hit loop may strike: the first one close enough, if any. */
  function Target(es: seq<EnemyShip>, distances: seq<real>): set<EnemyShip> {
    var h := FirstBelow(distances, HitThreshold);
    if h < |es| then {es[h]} else {}
  }

  /** What one hit does to ship `e` (whose state was `before`), with `es` the fleet
      list before the hit: 10 health less, hostile, bars redrawn for the new health,
      and, once its health is at most 0, removeEnemy's effect. */
  ghost predicate Struck(manager: EnemyManager, es: seq<EnemyShip>, e: EnemyShip, before: Status)
    reads manager, e
  {
    && e.health == before.health - HitDamage && e.isHostile
    && e.healthBars == (if before.healthBars.None? then None else Some(HealthBarLayout(e.health)))
    && e.animations == before.animations && e.hasModel == before.hasModel
    && (e.health > 0 ==> manager.enemies == es && e.hasMixer == before.hasMixer && e.inScene == before.inScene)
    && (e.health <= 0 && before.animations.Some? ==> manager.enemies == es && e.hasMixer && e.inScene == before.inScene)
    && (e.health <= 0 && before.animations.None? ==>
          manager.enemies == FilterOutId(es, e.id) && !e.inScene && e.hasMixer == before.hasMixer)
  }

  /** The state of the ship a frame's hit loop may strike (any status when there is none). */
  function TargetStatus(es: seq<EnemyShip>, distances: seq<real>): Status
    reads Target(es, distances)
  {
    var h := FirstBelow(distances, HitThreshold);
    if h < |es| then es[h].CurrentStatus() else Status(0, false, None, false, None, false, false)
  }

  /** Whether a frame's hit loop over `es` strikes: the latch was open, some ship is
      close enough, and the loop reaches it without meeting a ship still loading. */
  ghost predicate Strikes(es: seq<EnemyShip>, distances: seq<real>, wasHit: bool)
    reads es`hasModel
  {
    var h := FirstBelow(distances, HitThreshold);
    !wasHit && h < |es| && LoadedBefore(es, h + 1)
  }

  /** The effect of one frame's hit loop over `es` (the list when the loop began), with
      `before` the target's state then: the latch closes exactly when it strikes, a
      strike is `Struck`, and without one the list and the target are as they were. */
  ghost predicate LoopEffect(manager: EnemyManager, es: seq<EnemyShip>, distances: seq<real>,
                             wasHit: bool, isHit: bool, before: Status)
    reads manager, es`hasModel, Target(es, distances)
  {
    var h := FirstBelow(distances, HitThreshold);
    var hit := Strikes(es, distances, wasHit);
    && isHit == (wasHit || hit)
    && (!hit ==> manager.enemies == es && TargetStatus(es, distances) == before)
    && (hit ==> Struck(manager, es, es[h], before))
  }

  /** The body of the hit branch, for a ship that has its model. */
  method Strike(manager: EnemyManager, enemy: EnemyShip)
    requires manager.Valid() && enemy.hasModel
    modifies manager, enemy`health, enemy`isHostile, enemy`healthBars, enemy`hasMixer, enemy`inScene
    ensures manager.Valid()
    ensures manager.spawnIndex == old(manager.spawnIndex) && manager.awaiting == old(manager.awaiting)
    ensures manager.awaitingOthers == old(manager.awaitingOthers)
    ensures Struck(manager, old(manager.enemies), enemy, old(enemy.CurrentStatus()))
  {
    enemy.health := enemy.health - HitDamage;
    if !enemy.isHostile {
      enemy.isHostile := true;
    }
    enemy.UpdateHealthBar();
    if enemy.health <= 0 {
      manager.RemoveEnemy(enemy);
    }
  }

  class PlayerShot {
    /** The extended path the ball flies along. */
    const path: seq<Vec3>
    const totalDuration: real
    /** `startTime`: null until the first frame. */
    var startTime: Option<real>
    /** The latch: once set, the shot damages nothing more. */
    var isHit: bool
    /** The frame this shot has requested and that has neither run nor been cancelled. */
    var pending: Option<nat>
    /** Whether the ball is still a child of the ship's model. */
    var ballAttached: bool
    /** The latch `isHit` as a count: it goes up once, on the first frame that strikes a
        loaded ship, whatever that ship's health is. */
    ghost var hits: nat

    ghost predicate Valid()
      reads this
    {
      hits == if isHit then 1 else 0
    }

    constructor (path: seq<Vec3>, totalDuration: real)
      ensures Valid() && this.path == path && this.totalDuration == totalDuration
      ensures startTime.None? && !isHit && pending.None? && ballAttached
    {
      this.path, this.totalDuration := path, totalDuration;
      startTime, isHit, pending, ballAttached := None, false, None, true;
      hits := 0;
    }

    /** The hit loop of one frame, over the fleet list as it stands when the loop
        starts (`distances[i]` is the ball's distance to ship i). It reads every ship's
        model, so a ship still loading makes the frame throw when the loop reaches it.
        A ship is struck only while the latch is open, and only the first close one: it
        loses 10 health, turns hostile, has its bars redrawn, and is removed once its
        health is at most 0 (dying ships are not skipped; health is not clamped). */
    method HitEnemies(manager: EnemyManager, distances: seq<real>) returns (outcome: Completion)
      requires Valid() && manager.Valid() && |distances| == |manager.enemies|
      modifies this`isHit, this`hits, manager
      modifies Target(manager.enemies, distances)`health, Target(manager.enemies, distances)`isHostile
      modifies Target(manager.enemies, distances)`healthBars, Target(manager.enemies, distances)`hasMixer
      modifies Target(manager.enemies, distances)`inScene
      ensures Valid() && manager.Valid()
      ensures manager.spawnIndex == old(manager.spawnIndex) && manager.awaiting == old(manager.awaiting)
      ensures manager.awaitingOthers == old(manager.awaitingOthers)
      ensures outcome == Thrown <==> !LoadedBefore(old(manager.enemies), |old(manager.enemies)|)
      ensures LoopEffect(manager, old(manager.enemies), distances, old(isHit), isHit,
                         old(TargetStatus(manager.enemies, distances)))
    {
      var snapshot := manager.enemies;
      ghost var h := FirstBelow(distances, HitThreshold);
      var i := 0;
      while i < |snapshot|
        invariant 0 <= i <= |snapshot| && snapshot == old(manager.enemies)
        invariant Valid() && manager.Valid()
        invariant manager.spawnIndex == old(manager.spawnIndex) && manager.awaiting == old(manager.awaiting)
        invariant manager.awaitingOthers == old(manager.awaitingOthers)
        invariant LoadedBefore(snapshot, i)
        invariant isHit == (old(isHit) || h < i)
        invariant hits == old(hits) + (if !old(isHit) && h < i then 1 else 0)
        invariant !(!old(isHit) && h < i) ==>
                    manager.enemies == snapshot && (h < |snapshot| ==> snapshot[h].CurrentStatus() == old(snapshot[h].CurrentStatus()))
        invariant !old(isHit) && h < i ==> Struck(manager, snapshot, snapshot[h], old(snapshot[h].CurrentStatus()))
      {
        var enemy := snapshot[i];
        if !enemy.hasModel {
          return Thrown;
        }
        if distances[i] < HitThreshold && !isHit {
          isHit := true;
          hits := hits + 1;
          Strike(manager, enemy);
        }
        i := i + 1;
      }
      outcome := Normal;
    }

    /** The branch of a frame taken while the flight time has not run out: the hit
        loop, then (unless it threw) the request for the next frame. */
    method RunningFrame(frames: FrameRegistry, manager: EnemyManager, distances: seq<real>) returns (outcome: Completion)
      requires Valid() && frames.Valid() && manager.Valid()
      requires |distances| == |manager.enemies|
      modifies this`isHit, this`hits, this`pending, frames, manager
      modifies Target(manager.enemies, distances)`health, Target(manager.enemies, distances)`isHostile
      modifies Target(manager.enemies, distances)`healthBars, Target(manager.enemies, distances)`hasMixer
      modifies Target(manager.enemies, distances)`inScene
      ensures Valid() && frames.Valid() && manager.Valid()
      ensures LoopEffect(manager, old(manager.enemies), distances, old(isHit), isHit,
                         old(TargetStatus(manager.enemies, distances)))
      ensures outcome == Thrown <==> !LoadedBefore(old(manager.enemies), |old(manager.enemies)|)
      ensures outcome == Thrown ==> pending == old(pending) && unchanged(frames)
      ensures outcome == Normal ==>
                && pending.Some? && pending.value !in old(frames.scheduled)
                && frames.rafHandles == old(frames.rafHandles) + {pending.value}
    {
      outcome := HitEnemies(manager, distances);
      if outcome == Normal {
        var id := frames.Request();
        pending := Some(id);
      }
    }

    /** One frame of the shot (the browser runs its pending frame): the wrapper first
        drops the frame from the registry; while the flight time has not run out the
        ball moves and RunningFrame runs; afterwards the ball is taken off the ship. */
    method Step(timestamp: real, frames: FrameRegistry, manager: EnemyManager, distances: seq<real>) returns (outcome: Completion)
      requires Valid() && frames.Valid() && manager.Valid()
      requires pending.Some? && pending.value in frames.browserPending
      requires |distances| == |manager.enemies|
      modifies this`startTime, this`isHit, this`hits, this`pending, this`ballAttached, frames, manager
      modifies Target(manager.enemies, distances)`health, Target(manager.enemies, distances)`isHostile
      modifies Target(manager.enemies, distances)`healthBars, Target(manager.enemies, distances)`hasMixer
      modifies Target(manager.enemies, distances)`inScene
      ensures Valid() && frames.Valid() && manager.Valid()
      ensures startTime == Some(if old(startTime).None? then timestamp else old(startTime).value)
      ensures old(isHit) ==> isHit && manager.enemies == old(manager.enemies)
      ensures (timestamp - startTime.value) / 1000.0 >= totalDuration ==>
                && outcome == Normal && pending.None? && !ballAttached
                && isHit == old(isHit) && unchanged(manager) && unchanged(Target(old(manager.enemies), distances))
                && frames.rafHandles == old(frames.rafHandles) - {old(pending).value}
      ensures (timestamp - startTime.value) / 1000.0 < totalDuration ==>
                && ballAttached == old(ballAttached)
                && LoopEffect(manager, old(manager.enemies), distances, old(isHit), isHit,
                              old(TargetStatus(manager.enemies, distances)))
                && (outcome == Thrown <==> !LoadedBefore(old(manager.enemies), |old(manager.enemies)|))
                && (outcome == Thrown ==> pending.None? && frames.rafHandles == old(frames.rafHandles) - {old(pending).value})
                && (outcome == Normal ==>
                      && pending.Some? && pending.value !in old(frames.scheduled)
                      && frames.rafHandles == old(frames.rafHandles) - {old(pending).value} + {pending.value})
    {
      frames.Fire(pending.value);
      pending := None;
      if startTime.None? {
        startTime := Some(timestamp);
      }
      var elapsed := (timestamp - startTime.value) / 1000.0;
      if elapsed < totalDuration {
        outcome := RunningFrame(frames, manager, distances);
      } else {
        ballAttached := false;
        outcome := Normal;
      }
    }
  }
}
