/** The player controller (player.js): health and its DOM bar, attack mode driven by
    the mouse buttons, the camera's azimuth window and its presets, and the attack arrow
    the player aims and fires. The camera's orientation is kept as the Euler angles
    (order YXZ) that `setFromQuaternion` reads back from it; PointerLockControls' mouse
    handling, which turns the camera between frames, is outside the model, so `Update`
    takes the orientation the camera has when it runs. */
module Players {
  import opened Common
  import opened Frames
  import opened AttackArrows

  // ---------------------------------------------------------------------------
  // The azimuth window

  /** `minAzimuthAngle`, `maxAzimuthAngle`, `minNegativeAzimuthAngle`,
      `maxNegativeAzimuthAngle` and `splitAzimuthRange`. */
  datatype AzimuthWindow = AzimuthWindow(min: real, max: real, minNegative: real, maxNegative: real, split: bool)

  /** The edge of the forbidden middle zone of a split window (hard-coded in
      applyAzimuthConstraints, and equal to the left preset's bounds). */
  const SplitEdge: real := 2.8

  /** setDefaultCameraAzimuthAngle: [1, 2]; the negative pair is left as it was. */
  function DefaultPreset(w: AzimuthWindow): AzimuthWindow {
    w.(min := 1.0, max := 2.0, split := false)
  }

  /** setAttackCameraAzimuthAngleForLeft: [2.8, pi] together with [-pi, -2.8]. */
  const LeftPreset: AzimuthWindow := AzimuthWindow(SplitEdge, PI, -PI, -SplitEdge, true)

  /** setAttackCameraAzimuthAngleForRight: [-0.4, 0.4]; the negative pair is left as it was. */
  function RightPreset(w: AzimuthWindow): AzimuthWindow {
    w.(min := -0.4, max := 0.4, split := false)
  }

  /** The windows the presets produce: a proper interval, or the left preset's split
      window. */
  ghost predicate WindowShape(w: AzimuthWindow) {
    if w.split then w == LeftPreset else w.min <= w.max
  }

  lemma PresetsAreShaped(w: AzimuthWindow)
    ensures WindowShape(DefaultPreset(w)) && DefaultPreset(w).min == 1.0 && DefaultPreset(w).max == 2.0
    ensures WindowShape(RightPreset(w)) && RightPreset(w).min == -0.4 && RightPreset(w).max == 0.4
    ensures WindowShape(LeftPreset)
  {
  }

  /** The azimuth applyAzimuthConstraints leaves: in a split window an angle strictly
      between -2.8 and 2.8 snaps to the edge on its side, any other one is clamped to
      the half window of its sign; otherwise the angle is clamped to [min, max]. */
  function ConstrainedAzimuth(y: real, w: AzimuthWindow): real {
    if w.split then
      if -SplitEdge < y < SplitEdge then (if y >= 0.0 then SplitEdge else -SplitEdge)
      else if y >= 0.0 then Clamp(y, w.min, w.max)
      else Clamp(y, w.minNegative, w.maxNegative)
    else Clamp(y, w.min, w.max)
  }

  /** The constrained azimuth lies in the window: in [min, max] for an interval, in
      [2.8, pi] or [-pi, -2.8] for the split window; an angle already there is kept. */
  lemma ConstrainedAzimuthInWindow(y: real, w: AzimuthWindow)
    requires WindowShape(w)
    ensures var r := ConstrainedAzimuth(y, w);
      && (!w.split ==> w.min <= r <= w.max)
      && (w.split ==> (SplitEdge <= r <= PI) || (-PI <= r <= -SplitEdge))
      && (!w.split && w.min <= y <= w.max ==> r == y)
      && (w.split && ((SplitEdge <= y <= PI) || (-PI <= y <= -SplitEdge)) ==> r == y)
  {
  }

  /** Constraining twice is constraining once. */
  lemma ConstrainedAzimuthIdempotent(y: real, w: AzimuthWindow)
    requires WindowShape(w)
    ensures ConstrainedAzimuth(ConstrainedAzimuth(y, w), w) == ConstrainedAzimuth(y, w)
  {
    ConstrainedAzimuthInWindow(y, w);
    ConstrainedAzimuthInWindow(ConstrainedAzimuth(y, w), w);
  }

  // ---------------------------------------------------------------------------
  // Health

  /** The widths, in percent, of the green and red parts of the health bar. */
  datatype HealthBar = HealthBar(green: int, red: int)

  /** The widths updatePlayerHealth writes for a health value: green is the health,
      red the rest of 100 (neither is clamped). */
  function HealthBarFor(health: int): (bar: HealthBar)
    ensures bar.green == health && bar.green + bar.red == 100
  {
    HealthBar(health, 100 - health)
  }

  // ---------------------------------------------------------------------------
  // The camera

  /** Where the camera sits relative to the ship: `initialCameraPosition` (constants.js is
      not part of this model) or an attack preset. */
  datatype CameraPlacement = InitialCameraPosition | At(position: Vec3)

  const PositionAttackLeft: Vec3 := Vec3(0.0, 7.0, -10.0)
  const PositionAttackRight: Vec3 := Vec3(0.0, 7.0, 10.0)

  /** The Euler angles (order YXZ) of the fixed quaternion switchToDefaultPosition
      writes, to double precision: the camera faces along the ship's side. */
  const DefaultYaw: real := 1.570796326794898
  const DefaultPitch: real := -0.12120367320510285

  /** The arrows' initial curves: updateCurve's points for "left" and "right". */
  const LeftCurve: seq<Vec3> := [Vec3(0.0, 0.0, 0.0), Vec3(0.0, 10.0, 10.0), Vec3(-5.0, 0.0, 20.0)]
  const RightCurve: seq<Vec3> := [Vec3(0.0, 0.0, 0.0), Vec3(0.0, 10.0, -10.0), Vec3(-5.0, 0.0, -20.0)]

  /** Mouse buttons as `MouseEvent.button` numbers them. */
  const MainButton: int := 0
  const SecondaryButton: int := 2

  class Player {
    /** `this.health`: a number, or (None) anything else. */
    var health: Option<int>
    /** The DOM health bar, found by addHealthBar once the ship has loaded. */
    var healthBar: Option<HealthBar>
    /** Whether the ship's glTF model has loaded (`this.ship.model`). */
    var hasShipModel: bool
    var isInAttackMode: bool
    var window: AzimuthWindow
    /** The camera's orientation, as Euler angles, and its placement. */
    var cameraYaw: real
    var cameraPitch: real
    var cameraPlacement: CameraPlacement
    /** `this._euler`: the scratch Euler angles the constraint code works on. */
    var eulerY: real
    var eulerX: real
    var attackArrow: AttackArrow?
    var gameOverShown: bool

    ghost predicate Valid()
      reads this
    {
      && WindowShape(window)
      && (healthBar.Some? && health.Some? ==> healthBar.value == HealthBarFor(health.value))
    }

    ghost predicate ArrowValid()
      reads this, attackArrow
    {
      attackArrow != null ==> attackArrow.Valid()
    }

    /** The constructor: full health, not attacking, the default window (from
        setupControls), no arrow; the ship's model is still loading and the negative
        pair of the window is still undefined (0 here). */
    constructor (cameraYaw: real, cameraPitch: real)
      ensures Valid() && ArrowValid()
      ensures health == Some(100) && healthBar.None? && !hasShipModel && !isInAttackMode
      ensures window == AzimuthWindow(1.0, 2.0, 0.0, 0.0, false)
      ensures this.cameraYaw == cameraYaw && this.cameraPitch == cameraPitch
      ensures cameraPlacement == InitialCameraPosition && attackArrow == null && !gameOverShown
    {
      health, healthBar, hasShipModel, isInAttackMode := Some(100), None, false, false;
      window := DefaultPreset(AzimuthWindow(0.0, 0.0, 0.0, 0.0, false));
      this.cameraYaw, this.cameraPitch, cameraPlacement := cameraYaw, cameraPitch, InitialCameraPosition;
      eulerY, eulerX := 0.0, 0.0;
      attackArrow, gameOverShown := null, false;
    }

    /** updatePlayerHealth(difference): with a numeric health, add the difference, redraw
        the bar and return the new health; otherwise change nothing and return undefined
        (None). Before the bar exists the redraw throws, after the health has changed. */
    method UpdatePlayerHealth(difference: int) returns (outcome: Completion, result: Option<int>)
      requires Valid()
      modifies this`health, this`healthBar
      ensures Valid()
      ensures old(health).None? ==> outcome == Normal && result.None? && health.None? && healthBar == old(healthBar)
      ensures old(health).Some? ==> health == Some(old(health).value + difference)
      ensures old(health).Some? && old(healthBar).None? ==> outcome == Thrown && healthBar.None?
      ensures old(health).Some? && old(healthBar).Some? ==>
                outcome == Normal && result == health && healthBar == Some(HealthBarFor(health.value))
    {
      if health.None? {
        return Normal, None;
      }
      health := Some(health.value + difference);
      if healthBar.None? {
        return Thrown, None;
      }
      healthBar := Some(HealthBarFor(health.value));
      outcome, result := Normal, health;
    }

    /** The ship's load callback: the camera goes onto the ship and addHealthBar finds
        the bar (drawn as `markup` by the page) and redraws it with updatePlayerHealth(0),
        which leaves it as it is when the health is not a number. */
    method ShipLoaded(markup: HealthBar)
      requires Valid()
      modifies this`hasShipModel, this`healthBar
      ensures Valid()
      ensures hasShipModel && health == old(health)
      ensures healthBar == (if health.Some? then Some(HealthBarFor(health.value)) else Some(markup))
    {
      hasShipModel := true;
      healthBar := Some(markup);
      if health.Some? {
        healthBar := Some(HealthBarFor(health.value));
      }
    }

    /** applyAzimuthConstraints: read the camera's angles, constrain the azimuth to the
        window, and write the angles back. */
    method ApplyAzimuthConstraints()
      requires Valid()
      modifies this`eulerY, this`eulerX, this`cameraYaw
      ensures Valid()
      ensures eulerX == cameraPitch && eulerY == ConstrainedAzimuth(old(cameraYaw), window) && cameraYaw == eulerY
      ensures !window.split ==> window.min <= cameraYaw <= window.max
      ensures window.split ==> (SplitEdge <= cameraYaw <= PI) || (-PI <= cameraYaw <= -SplitEdge)
    {
      eulerX, eulerY := cameraPitch, cameraYaw;
      if window.split {
        if eulerY > -SplitEdge && eulerY < SplitEdge {
          eulerY := if eulerY >= 0.0 then SplitEdge else -SplitEdge;
        } else {
          if eulerY >= 0.0 {
            eulerY := Clamp(eulerY, window.min, window.max);
          } else {
            eulerY := Clamp(eulerY, window.minNegative, window.maxNegative);
          }
        }
      } else {
        eulerY := Clamp(eulerY, window.min, window.max);
      }
      cameraYaw := eulerY;
      ConstrainedAzimuthInWindow(old(cameraYaw), window);
    }

    /** addAttackArrow(direction): a new arrow replaces the old one (whose mesh, if any,
        stays on the ship) before the direction is checked; "left" and "right" give it
        their curve, any other direction throws and leaves the arrow without points. */
    method AddAttackArrow(direction: string) returns (outcome: Completion)
      requires Valid() && ArrowValid()
      modifies this`attackArrow
      ensures Valid() && ArrowValid()
      ensures attackArrow != null && fresh(attackArrow)
      ensures outcome == Normal <==> direction == "left" || direction == "right"
      ensures direction == "left" ==> attackArrow.points == Some(LeftCurve)
      ensures direction == "right" ==> attackArrow.points == Some(RightCurve)
      ensures outcome == Normal ==> attackArrow.curveMesh == Some(Mesh(0, attackArrow.points.value)) && attackArrow.attached == {0}
      ensures outcome == Thrown ==> attackArrow.points.None? && attackArrow.curveMesh.None?
      ensures attackArrow.previousRotation == 0.0 && attackArrow.previousPolarAngle == 0.0
    {
      var arrow := new AttackArrow();
      attackArrow := arrow;
      if direction == "left" {
        arrow.UpdateCurve(LeftCurve);
      } else if direction == "right" {
        arrow.UpdateCurve(RightCurve);
      } else {
        return Thrown;
      }
      outcome := Normal;
    }

    /** removeAttackArrow: the arrow's mesh is detached and disposed, and the arrow is
        dropped. */
    method RemoveAttackArrow()
      requires Valid() && ArrowValid()
      modifies this`attackArrow, attackArrow
      ensures Valid() && ArrowValid()
      ensures attackArrow == null
      ensures old(attackArrow) != null ==>
                old(attackArrow).attached == {}
                && old(attackArrow).disposed == old(attackArrow.disposed) + MeshIds(old(attackArrow.curveMesh))
    {
      if attackArrow != null {
        attackArrow.RemoveMesh();
        attackArrow := null;
      }
    }

    /** switchToAttackPosition: nothing before the ship has loaded; otherwise an azimuth
        beyond pi/2 selects the left attack position, window and arrow, and any other
        azimuth the right ones, unless the window is split. */
    method SwitchToAttackPosition()
      requires Valid() && ArrowValid()
      modifies this`eulerY, this`eulerX, this`cameraPlacement, this`window, this`attackArrow
      ensures Valid() && ArrowValid()
      ensures !hasShipModel ==> unchanged(this)
      ensures hasShipModel && cameraYaw > PI / 2.0 ==>
                && cameraPlacement == At(PositionAttackLeft) && window == LeftPreset
                && attackArrow != null && fresh(attackArrow) && attackArrow.points == Some(LeftCurve)
      ensures hasShipModel && cameraYaw <= PI / 2.0 && !old(window).split ==>
                && cameraPlacement == At(PositionAttackRight) && window == RightPreset(old(window))
                && attackArrow != null && fresh(attackArrow) && attackArrow.points == Some(RightCurve)
      ensures hasShipModel && cameraYaw <= PI / 2.0 && old(window).split ==>
                cameraPlacement == old(cameraPlacement) && window == old(window) && attackArrow == old(attackArrow)
    {
      if !hasShipModel {
        return;
      }
      eulerX, eulerY := cameraPitch, cameraYaw;
      var currentAzimuthAngle := eulerY;
      if currentAzimuthAngle > PI / 2.0 {
        cameraPlacement := At(PositionAttackLeft);
        window := LeftPreset;
        var _ := AddAttackArrow("left");
      } else if !window.split {
        cameraPlacement := At(PositionAttackRight);
        window := RightPreset(window);
        var _ := AddAttackArrow("right");
      }
    }

    /** switchToDefaultPosition: nothing before the ship has loaded; otherwise the camera
        returns to its default orientation and placement, the default window is restored
        and the arrow removed. */
    method SwitchToDefaultPosition()
      requires Valid() && ArrowValid()
      modifies this`cameraYaw, this`cameraPitch, this`cameraPlacement, this`window, this`attackArrow, attackArrow
      ensures Valid() && ArrowValid()
      ensures !old(hasShipModel) ==> unchanged(this) && (old(attackArrow) != null ==> unchanged(old(attackArrow)))
      ensures old(hasShipModel) ==>
                && cameraYaw == DefaultYaw && cameraPitch == DefaultPitch && cameraPlacement == InitialCameraPosition
                && window == DefaultPreset(old(window)) && attackArrow == null
                && (old(attackArrow) != null ==> old(attackArrow).attached == {})
    {
      if !hasShipModel {
        return;
      }
      cameraYaw, cameraPitch := DefaultYaw, DefaultPitch;
      cameraPlacement := InitialCameraPosition;
      window := DefaultPreset(window);
      RemoveAttackArrow();
    }

    /** fireCannonBall: only with an arrow. */
    method FireCannonBall()
      requires Valid() && ArrowValid()
      modifies attackArrow
      ensures Valid() && ArrowValid()
      ensures attackArrow != null ==> attackArrow.loadsStarted == old(attackArrow.loadsStarted) + 1
    {
      if attackArrow != null {
        attackArrow.FireCannonBall();
      }
    }

    /** The mousedown handler: the secondary button enters attack mode (once), the main
        button fires while in attack mode. */
    method HandleMouseDown(button: int)
      requires Valid() && ArrowValid()
      modifies this`isInAttackMode, this`eulerY, this`eulerX, this`cameraPlacement, this`window, this`attackArrow
      modifies attackArrow
      ensures Valid() && ArrowValid()
      ensures isInAttackMode == (old(isInAttackMode) || button == SecondaryButton)
      ensures button == SecondaryButton && !old(isInAttackMode) && hasShipModel
              && (cameraYaw > PI / 2.0 || !old(window).split) ==>
                attackArrow != null && fresh(attackArrow) && attackArrow.points.Some?
      ensures button == MainButton && old(isInAttackMode) && old(attackArrow) != null ==>
                attackArrow == old(attackArrow) && attackArrow.loadsStarted == old(attackArrow.loadsStarted) + 1
      ensures !(button == SecondaryButton && !old(isInAttackMode)) && !(button == MainButton && old(isInAttackMode)) ==>
                unchanged(this) && (old(attackArrow) != null ==> unchanged(old(attackArrow)))
    {
      if button == SecondaryButton && !isInAttackMode {
        isInAttackMode := true;
        SwitchToAttackPosition();
      }
      if button == MainButton && isInAttackMode {
        FireCannonBall();
      }
    }

    /** The mouseup handler: the secondary button leaves attack mode. */
    method HandleMouseUp(button: int)
      requires Valid() && ArrowValid()
      modifies this`isInAttackMode, this`cameraYaw, this`cameraPitch, this`cameraPlacement, this`window, this`attackArrow
      modifies attackArrow
      ensures Valid() && ArrowValid()
      ensures isInAttackMode == (old(isInAttackMode) && button != SecondaryButton)
      ensures button == SecondaryButton && old(isInAttackMode) && hasShipModel ==>
                attackArrow == null && window == DefaultPreset(old(window))
      ensures !(button == SecondaryButton && old(isInAttackMode)) ==>
                unchanged(this) && (old(attackArrow) != null ==> unchanged(old(attackArrow)))
    {
      if button == SecondaryButton && isInAttackMode {
        isInAttackMode := false;
        SwitchToDefaultPosition();
      }
    }

    /** update: with the controls locked, constrain the azimuth and steer the arrow by
        the constrained angles (`trig` gives an angle's cosine and sine). The ship's own
        update (ship.js) is not part of this model. */
    method Update(locked: bool, yaw: real, pitch: real, trig: real -> (real, real)) returns (outcome: Completion)
      requires Valid() && ArrowValid()
      modifies this`eulerY, this`eulerX, this`cameraYaw, this`cameraPitch, attackArrow
      ensures Valid() && ArrowValid()
      ensures cameraPitch == pitch
      ensures !locked ==> cameraYaw == yaw && outcome == Normal && (attackArrow != null ==> unchanged(attackArrow))
      ensures locked ==> cameraYaw == ConstrainedAzimuth(yaw, window)
      ensures outcome == Thrown ==> locked && attackArrow != null
      ensures locked && attackArrow != null ==>
                (outcome == Normal <==> old(attackArrow.points).Some? && |old(attackArrow.points).value| >= 2)
      ensures locked && attackArrow != null && outcome == Normal ==>
                && attackArrow.previousRotation == cameraYaw && attackArrow.previousPolarAngle == pitch
                && var rotationDelta := cameraYaw - Reset(old(attackArrow.previousRotation), cameraYaw);
                   var polarDelta := pitch - Reset(old(attackArrow.previousPolarAngle), pitch);
                   attackArrow.points
                     == Some(AimedPoints(old(attackArrow.points).value, trig(rotationDelta).0, trig(rotationDelta).1, polarDelta))
    {
      cameraYaw, cameraPitch := yaw, pitch;
      outcome := Normal;
      if locked {
        ApplyAzimuthConstraints();
        if attackArrow != null {
          outcome := attackArrow.Update(eulerY, eulerX, trig);
        }
      }
    }

    /** gameOver: the game-over screen is shown and every pending frame cancelled. */
    method GameOver(frames: FrameRegistry)
      requires frames.Valid()
      modifies this`gameOverShown, frames
      ensures frames.Valid() && gameOverShown
      ensures frames.rafHandles == {} && frames.browserPending == {}
      ensures frames.scheduled == old(frames.scheduled)
    {
      gameOverShown := true;
      frames.CancelAll();
    }
  }
}
