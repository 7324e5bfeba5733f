/** The enemy's cannon shot (the load callback and frame closure of
    EnemyShip.fireCannonBall in enemy-ship.js): a ball flies from the raised ship
    position towards the raised player position while its firer is still in the fleet
    and its flight time lasts, and damages the player at most once. The curve's length
    and the ball's distance to the player are inputs of the calls that use them. */
module EnemyShots {
  import opened Common
  import opened EnemyShips
  import opened Fleet
  import opened Frames
  import opened Players

  /** `speed` of an enemy cannon ball, in units per second. */
  const EnemyShotSpeed: real := 100.0
  /** A ball closer than this to the player hits. */
  const PlayerHitThreshold: real := 50.0
  const PlayerHitDamage: int := 10

  class EnemyShot {
    /** The id of the ship that fired. */
    const firerId: int
    /** The two points of the curve: raised ship position, raised player position. */
    const points: seq<Vec3>
    const totalDuration: real
    var startTime: Option<real>
    /** The latch: once set, the shot damages nothing more. */
    var isHit: bool
    /** The frame this shot has requested and that has neither run nor been cancelled. */
    var pending: Option<nat>
    /** Whether the ball is still in the scene. */
    var ballInScene: bool
    /** The latch `isHit` as a count: it goes up once, on the first close frame, whether
        or not the player's health is a number. */
    ghost var hits: nat

    ghost predicate Valid()
      reads this
    {
      hits == if isHit then 1 else 0
    }

    /** The load callback: the ball enters the scene at the ship, the flight lasts
        `min(totalLength / 100, 6)` seconds for the supplied length of the curve, and
        the first frame is requested. */
    constructor (firerId: int, request: ShotRequest, totalLength: real, frames: FrameRegistry)
      requires frames.Valid()
      modifies frames
      ensures Valid() && frames.Valid()
      ensures this.firerId == firerId && points == [request.from, request.to]
      ensures totalDuration == FlightDuration(totalLength, EnemyShotSpeed)
      ensures startTime.None? && !isHit && ballInScene
      ensures pending.Some? && pending.value !in old(frames.scheduled)
      ensures frames.rafHandles == old(frames.rafHandles) + {pending.value}
    {
      this.firerId := firerId;
      points := [request.from, request.to];
      totalDuration := FlightDuration(totalLength, EnemyShotSpeed);
      startTime, isHit, ballInScene := None, false, true;
      hits := 0;
      new;
      var id := frames.Request();
      pending := Some(id);
    }

    /** The hit branch: 10 from the player's health, the latch, and gameOver once the
        new health is at most 0 (a health that is not a number gives undefined, which is
        not at most 0). The bar's redraw throws before the latch is set when the bar is
        not there yet. */
    method HitPlayer(frames: FrameRegistry, player: Player) returns (outcome: Completion)
      requires Valid() && frames.Valid() && player.Valid() && !isHit
      modifies this`isHit, this`hits, frames, player`health, player`healthBar, player`gameOverShown
      ensures Valid() && frames.Valid() && player.Valid()
      ensures frames.scheduled == old(frames.scheduled)
      ensures old(player.health).None? ==> outcome == Normal && isHit && unchanged(player) && unchanged(frames)
      ensures old(player.health).Some? && old(player.healthBar).None? ==>
                && outcome == Thrown && !isHit && player.gameOverShown == old(player.gameOverShown)
                && player.health == Some(old(player.health).value - PlayerHitDamage) && unchanged(frames)
      ensures old(player.health).Some? && old(player.healthBar).Some? ==>
                && outcome == Normal && isHit
                && player.health == Some(old(player.health).value - PlayerHitDamage)
                && player.healthBar == Some(HealthBarFor(player.health.value))
                && player.gameOverShown == (old(player.gameOverShown) || player.health.value <= 0)
                && (player.health.value <= 0 ==> frames.rafHandles == {})
                && (player.health.value > 0 ==> unchanged(frames))
    {
      var completion, newPlayerHealth := player.UpdatePlayerHealth(-PlayerHitDamage);
      if completion == Thrown {
        return Thrown;
      }
      isHit := true;
      hits := hits + 1;
      if newPlayerHealth.Some? && newPlayerHealth.value <= 0 {
        player.GameOver(frames);
      }
      outcome := Normal;
    }

    /** One frame of the shot (the browser runs its pending frame; `distance` is the
        ball's distance to the player's live position, measured again every frame). The ball flies
        on only while its firer is in the fleet and the flight time lasts. The first
        frame closer than 50 takes 10 from the player's health, and a resulting health
        of at most 0 ends the game, which cancels every pending frame; the frame is then
        requested again all the same. Once the flight ends the ball leaves the scene. */
    method Step(timestamp: real, frames: FrameRegistry, manager: EnemyManager, player: Player, distance: real)
      returns (outcome: Completion)
      requires Valid() && frames.Valid() && player.Valid()
      requires pending.Some? && pending.value in frames.browserPending
      modifies this`startTime, this`isHit, this`hits, this`pending, this`ballInScene, frames
      modifies player`health, player`healthBar, player`gameOverShown
      ensures Valid() && frames.Valid() && player.Valid()
      ensures startTime == Some(if old(startTime).None? then timestamp else old(startTime).value)
      ensures hits <= 1 && (hits > old(hits) ==> !old(isHit))
      ensures var flying := manager.IsEnemyExists(firerId) && (timestamp - startTime.value) / 1000.0 < totalDuration;
              var strikes := flying && distance < PlayerHitThreshold && !old(isHit);
              && (!flying ==>
                    && outcome == Normal && !ballInScene && pending.None? && isHit == old(isHit)
                    && frames.rafHandles == old(frames.rafHandles) - {old(pending).value}
                    && unchanged(player))
              && (flying && !strikes ==>
                    && outcome == Normal && ballInScene == old(ballInScene) && isHit == old(isHit) && unchanged(player)
                    && pending.Some? && pending.value !in old(frames.scheduled)
                    && frames.rafHandles == old(frames.rafHandles) - {old(pending).value} + {pending.value})
              && (strikes && old(player.health).None? ==>
                    && outcome == Normal && isHit && unchanged(player)
                    && pending.Some? && frames.rafHandles == old(frames.rafHandles) - {old(pending).value} + {pending.value})
              && (strikes && old(player.health).Some? && old(player.healthBar).None? ==>
                    && outcome == Thrown && !isHit && pending.None? && player.gameOverShown == old(player.gameOverShown)
                    && player.health == Some(old(player.health).value - PlayerHitDamage)
                    && frames.rafHandles == old(frames.rafHandles) - {old(pending).value})
              && (strikes && old(player.health).Some? && old(player.healthBar).Some? ==>
                    && outcome == Normal && isHit
                    && player.health == Some(old(player.health).value - PlayerHitDamage)
                    && player.healthBar == Some(HealthBarFor(player.health.value))
                    && player.gameOverShown == (old(player.gameOverShown) || player.health.value <= 0)
                    && pending.Some? && pending.value !in old(frames.scheduled)
                    && (player.health.value <= 0 ==> frames.rafHandles == {pending.value})
                    && (player.health.value > 0 ==>
                          frames.rafHandles == old(frames.rafHandles) - {old(pending).value} + {pending.value}))
    {
      frames.Fire(pending.value);
      pending := None;
      if startTime.None? {
        startTime := Some(timestamp);
      }
      var elapsed := (timestamp - startTime.value) / 1000.0;
      var isEnemyExists := manager.IsEnemyExists(firerId);
      if isEnemyExists && elapsed < totalDuration {
        if distance < PlayerHitThreshold && !isHit {
          outcome := HitPlayer(frames, player);
          if outcome == Thrown {
            return;
          }
        }
        var id := frames.Request();
        pending := Some(id);
      } else {
        ballInScene := false;
      }
      outcome := Normal;
    }
  }
}
