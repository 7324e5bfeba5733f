# Pirate game logic in Dafny

The model covers the game-logic layer of the three.js pirate game (limonatasuyu/pirate-game):

- **Fleet** (`EnemyManager`): the list of enemy ships. A callback chain creates up to ten ships, one at a time. Each new ship is created only after the previous ship's model has loaded. Ships are found by id. They are removed by an id filter, either at once or when their death animation finishes.
- **Enemy ship** (`EnemyShip`):
  - where it spawns (rejection sampling against the other ships and the centre);
  - how it wanders and picks destinations;
  - how it turns on the player once hit, and fires every four seconds in range;
  - its floating health bar;
  - its cannon ball, which damages the player at most once.
- **Attack arrow** (`AttackArrow`):
  - the aiming curve the player steers with the camera;
  - the player's cannon ball, which flies along the curve extended by twenty collinear points and strikes at most one enemy ship.
- **Player** (`Player`):
  - health and the DOM health bar;
  - attack mode, driven by the mouse buttons;
  - the camera's azimuth window and its three presets;
  - the arrow's creation, removal and firing;
  - the game-over screen.
- **Asset caches** (`EnemyShipModel` and `CannonBallModel`): a load state machine (idle, loading, loaded). Callers share the load that is in flight. Copies are handed out at a standard scale.
- **Frame registry** (`rafHandles`): the set of animation-frame ids that are requested and have not run. `cancelAllAnimationFrames` empties it.

Geometry and randomness are inputs, not computed:

- Distances, curve lengths, the cosine and sine of a steering angle, and `Math.random()` draws are parameters.
- The length of the arrow's last segment, which `CannonBallLoaded` receives, is tied to that segment by `IsLengthOf` (the squared length), so no square root is needed. Curve lengths (`getLength`) and the distances to ships and to the player are free inputs.
- `trig` gives the cosine and sine of an angle. The methods leave it free (they do not require cos² + sin² = 1); only the segment-length lemmas `RotateYKeepsLength` and `AimedSegmentLength` assume that identity.
- The glTF loader's callbacks, the animation mixer's "finished" event and the browser running a frame are explicit method calls.

JavaScript semantics that the code relies on are written out:

- A callback that throws ends its frame without requesting the next one.
- `for..of` walks the array as it stood when the loop began.
- `undefined` and `0` count as "not set" for the arrow's previous angles and the ship's fire timer.
- `normalize()` leaves the zero vector as it is.

Modules follow the source files:

| module | file |
|---|---|
| `Common` | shared vectors, options and the clamp |
| `Frames` | utils.js |
| `Models` | models.js |
| `EnemyShips` | enemy-ship.js, without the cannon-ball closure |
| `Fleet` | enemy-manager.js |
| `EnemyShots` | the load callback and frame closure of enemy-ship.js `fireCannonBall` |
| `AttackArrows` | attack-arrow.js |
| `Players` | player.js |

What the model shows about the code as written:

- **A loading ship breaks the player's shot.** The player's hit loop reads every listed ship's model. A ship whose model is still loading makes the frame throw, and the ball stops.
- **An enemy ball outlives game over.** An enemy ball that ends the game cancels every pending frame. It then requests its own next frame all the same.
- **Nothing clamps health.** A ship's health can go below 0. A dying ship can be struck again while its death animation plays.

## Model

| member | source | states |
|---|---|---|
| Common.FlightDuration | attack-arrow.js:61-63 | The flight time is at most 6 seconds. It equals either 6 or length / speed, and it is non-negative for a non-negative length. |
| Common.Clamp | player.js:223-234 | For a proper interval the result lies in it. A value already inside is kept, a value below the minimum becomes the minimum, and a value above the maximum becomes the maximum. |
| Common.CloserThanIsDistance | enemy-ship.js:20-23 | Comparing squared distances decides `distanceTo(...) < limit` exactly. |
| Frames.FrameRegistry.constructor | utils.js:1 | The registry starts empty, with no history. |
| Frames.FrameRegistry.Request | utils.js:3-10 | A fresh id, never scheduled before, is added. Nothing else is added. The set stays equal to the ids scheduled and neither fired nor cancelled. |
| Frames.FrameRegistry.Fire | utils.js:4-6 | Running a frame removes exactly its id before the callback runs, and records the id as fired. |
| Frames.FrameRegistry.CancelFrame | utils.js:14 | The browser forgets the id. The id counts as cancelled only if it was still pending. |
| Frames.FrameRegistry.CancelAll | utils.js:12-17 | Every registered id is cancelled, and the set and the browser's queue end up empty. |
| Models.ModelCopy | models.js:66-88 | The copy always has the kind's standard scale (30 for ships, 3 for cannon balls). Its position and rotation are replaced exactly when a position or rotation is supplied. |
| Models.RunKeepsInvariant | models.js:18-57 | Over any trace of calls and callbacks, loading and a cached model never hold together. The loads started grow by at most one start from idle plus the number of error callbacks (late callbacks counted too, so this is a bound). Once a model is cached, no load starts. |
| Models.EffectiveErrors | models.js:48-52 | The error callbacks that arrive while a load is in flight never outnumber all error callbacks. |
| Models.RunCountsLoads | models.js:18-57 | Exactly: loads started plus the initial "busy or done" indicator equal the initial loads, plus the error callbacks that arrived during a load, plus the final indicator. |
| Models.FreshCacheLoads | models.js:18-57 | From a fresh cache, the loads started are exactly the in-flight error callbacks, plus one if a load is in flight or a model is cached at the end. |
| Models.LoadsBoundedByErrors | models.js:28-54 | From a fresh cache, the loads started never exceed one plus the number of error callbacks. |
| Models.ModelCache.constructor | models.js:8-12 | A cache starts idle: no model, not loading, no promise. |
| Models.ModelCache.LoadModel | models.js:18-57 | A cached model is returned and no load starts. While loading, the same promise is returned and no second load starts. From idle, exactly one load starts and `isLoading` is set. The new state is the state machine's step. |
| Models.ModelCache.LoadSucceeded | models.js:38-46 | The model is stored (with its clips, for ships only) and `isLoading` is cleared. |
| Models.ModelCache.LoadFailed | models.js:48-52 | `isLoading` is cleared and the model stays null, so the next call starts a new load. |
| Models.ModelCache.GetModelCopy | models.js:144-161 | With a cached model, the reply is `ModelCopy` of it. Without one, there is no copy yet and the call goes through `loadModel`. |
| EnemyShips.Destination | enemy-ship.js:6-12 | The point is on the water. For draws in [0,1), x is in [-200,600) and z is in [-200,0). |
| EnemyShips.RandomRotation | enemy-ship.js:30-38 | There is no turn about y. For draws in [0,1), the tilts about x and z are in [-0.1π, 0.1π). |
| EnemyShips.SpawnCandidate | enemy-ship.js:15-17 | A candidate is on the water, inside the 800 × 800 square around the origin. |
| EnemyShips.SpawnPosition | enemy-ship.js:14-28 | The result is the first acceptable candidate, and every earlier candidate was rejected. None means every supplied candidate was rejected. |
| EnemyShips.SpawnPositionIsSeparated | enemy-ship.js:14-28 | A returned spawn point is on the water, inside the square, and at least 200 from every other ship and from the origin. |
| EnemyShips.HealthBarLayout | enemy-ship.js:77-83 | The green scale is health/100. The scales sum to 1, the bars span [-1/2, 1/2], and they meet at p − 1/2. |
| EnemyShips.Wander | enemy-ship.js:124-153 | A destination is always set afterwards. Within 0.1 of it, the ship draws a new one and does not move; otherwise it keeps its destination or draws the first one. Destinations stay in the wandering rectangle. |
| EnemyShips.Attack | enemy-ship.js:155-190 | An unregistered ship changes nothing. The timer advances only within 200 of the player. A shot fires exactly when the timer reaches 4, and the timer then resets to 0. A timer below 4 stays below 4. |
| EnemyShips.WanderApproaches | enemy-ship.js:144-152 | A wandering ship that has not arrived ends the tick exactly `10 · deltaTime` closer to its destination. |
| EnemyShips.AttackApproaches | enemy-ship.js:169-178 | A hostile ship out of range fires nothing and closes in on the player by exactly `10 · deltaTime`. |
| EnemyShips.SteerApproaches | enemy-ship.js:144-178 | A step of `10 · deltaTime` along the normalised direction, without overshooting, shortens the distance by exactly that step. |
| EnemyShips.NormSqScale | enemy-ship.js:149 | Scaling a vector by k multiplies its squared length by k². |
| EnemyShips.ShotsArePaced | enemy-ship.js:179-189 | Over any run of attack ticks, the timer stays below 4. Each shot accounts for four seconds spent in range. |
| EnemyShips.EnemyShip.constructor | enemy-ship.js:43-50 | A new ship has health 100, is not hostile, has an empty clip list, and has no model, bars or destination. |
| EnemyShips.EnemyShip.UpdateHealthBar | enemy-ship.js:74-84 | Without bars, nothing changes. Otherwise the bars get the layout for the current health. |
| EnemyShips.EnemyShip.AddShip | enemy-ship.js:86-105 | The model and clips are stored. The ship is placed at the sampler's point, clear of the other loaded ships, and enters the scene with its bars. When the sampler finds none, nothing after it happens. |
| EnemyShips.EnemyShip.WanderAround | enemy-ship.js:124-153 | The ship's motion becomes `Wander` of its old motion. |
| EnemyShips.EnemyShip.AttackToPlayer | enemy-ship.js:155-190 | The motion and the shot are `Attack` of the old motion. |
| EnemyShips.EnemyShip.UpdateMovement | enemy-ship.js:259-266 | Nothing happens without a model. A ship that is not hostile wanders; a hostile one attacks. |
| Fleet.FilterOutId | enemy-manager.js:74 | No entry with the id remains. The list shrinks when the id was present. |
| Fleet.FilterOutIdMembers | enemy-manager.js:85 | The filter keeps exactly the entries with a different id. |
| Fleet.FilterOutIdConcat | enemy-manager.js:85 | Filtering distributes over concatenation. |
| Fleet.FilterOutAbsentId | enemy-manager.js:74 | Filtering by an id that no entry carries leaves the list unchanged. |
| Fleet.FilterOutIdIdempotent | enemy-manager.js:72-75 | Filtering twice by the same id is filtering once, so the listener firing for both actions is harmless. |
| Fleet.FilterKeepsPosition | enemy-manager.js:85 | A kept entry lands right after the kept entries that preceded it. |
| Fleet.FilterKeepsOrder | enemy-manager.js:82-86 | Kept entries keep their relative order. |
| Fleet.FilterKeepsDistinct | enemy-manager.js:85 | Filtering never makes a ship appear twice. |
| Fleet.FilterKeepsLoadedExceptLast | enemy-manager.js:85 | After filtering, only the last ship may lack a model, and only if it was the last ship before. |
| Fleet.ModelPositionsMembers | enemy-ship.js:93-95 | The positions passed to the sampler are exactly those of the ships that have a model. |
| Fleet.LoadedShipsMembers | enemy-manager.js:19 | `loadedEnemies` holds exactly the listed ships that have a model. |
| Fleet.LoadedShipsSnoc | enemy-manager.js:16-19 | The ship just pushed, still loading, is not among `loadedEnemies`. |
| Fleet.FilterKeepsOtherIds | enemy-manager.js:90-93 | Filtering one id leaves every other id's presence unchanged. |
| Fleet.ListDuringUpdateHasId | enemy-manager.js:42-55 | During `update`, an id is still registered exactly when it was at the start and no ship carrying it has finished dying yet. |
| Fleet.ShipTurn | enemy-manager.js:50-53 | A ship moves only with the player and the position present. It then moves exactly as `updateMovement` says. |
| Fleet.TurnsAt | enemy-manager.js:43-54 | Entry j of the frame's turns is ship j's turn. It starts from the ship's motion at the start of the frame and is registered as the list stands after the ship's own mixer. |
| Fleet.PushKeepsShape | enemy-manager.js:15-16 | Pushing a new ship onto a fully loaded list keeps the list free of repeats and leaves only the last ship unloaded. |
| Fleet.EnemyManager.constructor | enemy-manager.js:6-10 | The chain starts: one ship is listed and its load is awaited. |
| Fleet.EnemyManager.AddNextEnemy | enemy-manager.js:13-25 | At index 10 the chain ends. Below it, a new ship is pushed after the existing ones and awaited, and the loaded ships are captured. At most 10 ships are ever created, and only the last may lack a model. |
| Fleet.EnemyManager.ShipLoaded | enemy-manager.js:22-24 | The awaited ship gets its model, placed clear of the ships captured when it was pushed. The chain then continues, or it stops if no position was found. |
| Fleet.EnemyManager.MainEnemyPosition | enemy-manager.js:34-40 | Null exactly when `hasEnemies` fails, that is, when the list is empty or its first ship has no model. Otherwise it is the first ship's position. |
| Fleet.EnemyManager.HasEnemies | enemy-manager.js:30-32 | An empty list has no enemies. When `hasEnemies` holds, the first listed ship is also the first of the loaded ships. |
| Fleet.EnemyManager.IsEnemyExists | enemy-manager.js:90-93 | Some listed ship carries the id exactly when filtering that id out would change the list. |
| Fleet.EnemyManager.TwoShipsMeanHasEnemies | enemy-manager.js:30-32 | With two or more ships listed, the first is loaded, so `hasEnemies` holds. |
| Fleet.EnemyManager.RemoveEnemy | enemy-manager.js:57-88 | A ship without a model changes nothing. A ship with clips gets a mixer and stays listed. Otherwise the ship leaves the scene and its id is absent afterwards. |
| Fleet.EnemyManager.DeathAnimationFinished | enemy-manager.js:72-75 | The ship leaves the scene and its id is absent afterwards. |
| Fleet.EnemyManager.Update | enemy-manager.js:42-55 | The list ends as the finished death animations filtered it. Each ship of the starting list takes exactly its turn from `Turns`, and nothing else changes. |
| Fleet.EnemyManager.UpdateShip | enemy-manager.js:44-53 | One ship's mixer runs, then its movement, as its turn says. |
| Fleet.EnemyManager.MixerStep | enemy-manager.js:45-47 | A finishing animation removes the ship. Registration afterwards matches `DiedBy`. |
| Fleet.TakeTurn | enemy-manager.js:50-53 | The ship's motion and shot are its entry of `Turns`. |
| EnemyShots.EnemyShot.constructor | enemy-ship.js:203-218 | The ball enters the scene, and the flight time is min(length/100, 6). The first frame is requested, and its id is the only one added. |
| EnemyShots.EnemyShot.HitPlayer | enemy-ship.js:234-241 | The player loses 10 once and the latch is set. Game over comes exactly when the new health is at most 0 (which cancels all frames). A non-numeric health takes no damage. A missing bar throws before the latch is set. |
| EnemyShots.EnemyShot.Step | enemy-ship.js:220-252 | The ball flies only while its firer is listed and the flight lasts. It damages the player at most once, and only when closer than 50. Game over leaves only this shot's re-requested frame. At the end the ball leaves the scene. |
| AttackArrows.FirstBelow | attack-arrow.js:78-81 | The first index whose distance is below the limit, or the length when there is none. |
| AttackArrows.ExtendPath | attack-arrow.js:47-57 | The path is the original points followed by exactly 20 extension points. Point i is `ExtensionPoint(..., i)`. |
| AttackArrows.ExtensionPointIsCollinear | attack-arrow.js:49-56 | Extension point i equals last + i · (last − secondLast). |
| AttackArrows.ExtensionPointDegenerate | attack-arrow.js:51-56 | When the last two points coincide, every extension point is the last point. |
| AttackArrows.NormSqZero | attack-arrow.js:51 | Only the zero vector has length 0, which is where `normalize()` leaves its input alone. |
| AttackArrows.RotateYKeepsLength | attack-arrow.js:136-140 | Rotating about the vertical axis keeps a vector's length. |
| AttackArrows.AimScale | attack-arrow.js:145-146 | The scale factor is at least 0.1 and at least 1 − 5·polarDelta, and it is one of the two. |
| AttackArrows.AimedPoints | attack-arrow.js:128-151 | The point count and every point but the last are unchanged. |
| AttackArrows.AimedSegmentLength | attack-arrow.js:133-149 | For a true rotation (c² + s² = 1), the last segment's squared length is multiplied by the square of the scale factor. It never shrinks below a tenth of its prior length. |
| AttackArrows.AimedPointsStill | attack-arrow.js:126-151 | A camera that has not moved leaves the points unchanged. |
| AttackArrows.AttackArrow.constructor | attack-arrow.js:6-20 | An arrow starts with no points, no mesh and no previous angles. |
| AttackArrows.AttackArrow.CreateCurve | attack-arrow.js:22-33 | The previous mesh is detached and disposed. A new mesh along exactly the points becomes the only attached one. |
| AttackArrows.AttackArrow.UpdateCurve | attack-arrow.js:113-116 | Exactly the given points are stored and the mesh is rebuilt along them. |
| AttackArrows.AttackArrow.RemoveMesh | player.js:170-174 | The mesh is detached and disposed. |
| AttackArrows.AttackArrow.Update | attack-arrow.js:118-155 | Unset previous angles (0 or undefined) are reset to the inputs. With at least two points, the points become `AimedPoints` for the deltas and the previous angles become the inputs. Otherwise the call throws after the resets. |
| AttackArrows.AttackArrow.FireCannonBall | attack-arrow.js:35-39 | Exactly one cannon-ball load starts. |
| AttackArrows.AttackArrow.CannonBallLoaded | attack-arrow.js:39-110 | The shot's path starts with the arrow's points and adds 20 more. The k-th added point is the last point plus k times the last segment, whose length is the given `segmentLength`. Its duration is min(length/20, 6). The first frame is requested. Without two points the callback throws before any shot exists. |
| AttackArrows.Strike | attack-arrow.js:83-91 | The struck ship loses exactly 10 health, becomes hostile and has its bars redrawn. It is removed exactly when its health is at most 0. |
| AttackArrows.PlayerShot.constructor | attack-arrow.js:65-66 | A shot starts with no start time and the latch open. |
| AttackArrows.PlayerShot.HitEnemies | attack-arrow.js:78-93 | Over the list as it stood when the loop began, only the first ship closer than 50 is struck, and only with the latch open. The frame throws exactly when some listed ship has no model, and it strikes only if it got that far. The latch closes exactly on a strike and never reopens. Without a strike the list and the first close ship are unchanged. |
| AttackArrows.PlayerShot.RunningFrame | attack-arrow.js:72-96 | The hit loop's effect as in `HitEnemies`: one strike at most over the shot's life, the latch closes only on it, and without it the list and the first close ship are unchanged. The next frame is requested exactly when the hit loop did not throw. |
| AttackArrows.PlayerShot.Step | attack-arrow.js:67-107 | The frame's id leaves the registry, and the start time is fixed on the first frame. A closed latch stays closed and then the list does not change. While the flight lasts, the running frame runs with the effect of `HitEnemies`. Afterwards the ball leaves the ship, no frame is requested and no ship changes. |
| Players.PresetsAreShaped | player.js:37-55 | The default preset is [1,2] and the right preset is [−0.4,0.4], both not split. The left preset is the split window [2.8,π] ∪ [−π,−2.8]. |
| Players.ConstrainedAzimuthInWindow | player.js:212-235 | The constrained azimuth lies in [min,max], or in [2.8,π] ∪ [−π,−2.8] for the split window. An angle already inside is kept. |
| Players.ConstrainedAzimuthIdempotent | player.js:212-235 | Constraining twice gives the same result as constraining once. |
| Players.HealthBarFor | player.js:76-77 | The green width is the health, and the two widths sum to 100. |
| Players.Player.constructor | player.js:9-35 | The player starts with health 100, not attacking, with the default window and no arrow. |
| Players.Player.UpdatePlayerHealth | player.js:70-80 | For a numeric health, the difference is added, the bar is redrawn and the new health is returned. Otherwise nothing changes and undefined is returned. It throws after the update when the bar is missing. |
| Players.Player.ShipLoaded | player.js:26-30 | The bar is found and redrawn for the current health. |
| Players.Player.ApplyAzimuthConstraints | player.js:212-239 | The camera's azimuth becomes the constrained angle, inside the window. The pitch is kept. |
| Players.Player.AddAttackArrow | player.js:147-166 | A fresh arrow replaces the old one. "left" and "right" give it their curve. Any other direction throws, leaving the arrow without points. |
| Players.Player.RemoveAttackArrow | player.js:168-177 | The arrow's mesh is detached and disposed, and the arrow becomes null. |
| Players.Player.SwitchToAttackPosition | player.js:179-194 | Nothing happens before the ship loads. Otherwise an azimuth above π/2 selects the left position, window and arrow. A smaller one selects the right ones, unless the window is split, in which case nothing changes. |
| Players.Player.SwitchToDefaultPosition | player.js:196-209 | After the ship loads: the default orientation, the default placement and the default window are restored, and the arrow becomes null. |
| Players.Player.FireCannonBall | player.js:57-61 | With an arrow, exactly one load starts. Without one, nothing happens. |
| Players.Player.HandleMouseDown | player.js:86-94 | The secondary button enters attack mode. The main button fires only while attacking. Any other button changes nothing. |
| Players.Player.HandleMouseUp | player.js:97-102 | The secondary button leaves attack mode and restores the default window. Anything else changes nothing. |
| Players.Player.Update | player.js:126-145 | With the controls locked, the azimuth is constrained and the arrow is steered by the constrained angles: its points become `AimedPoints` for the deltas from its previous angles to the constrained ones. Unlocked, nothing but the orientation changes. |
| Players.Player.GameOver | player.js:245-248 | The game-over screen is shown and every pending frame is cancelled. |

## Left out

- Three.js geometry is not modelled. The model does not compute Catmull-Rom curve lengths, `getPointAt`, `getWorldPosition`, `distanceTo`, vector lengths or trigonometry; these are inputs. Reals stand in for IEEE doubles.
- `Math.random()` is not modelled: draws are parameters.
- The unbounded recursion of getRandomPosition is not modelled. It becomes a scan of a finite supply of candidates, and running out of them is an explicit outcome.
- GLTFLoader and Promises are not modelled. Their callbacks become the explicit methods `LoadSucceeded`, `LoadFailed`, `ShipLoaded` and `CannonBallLoaded`. The animation mixer's timing is not modelled: whether a death animation finishes in a frame is an input of `Update`.
- `PlaySound` and `Audio` are not modelled; they have no effect on the game state.
- `smoothLookAt` (quaternion slerp) is not modelled, so ship rotation is not part of the state. getRandomRotation is modelled only as the bounds of its angles.
- EnemyShips.EnemyShip.AddShip: does not store the random rotation or the scale of the model, since neither affects the game logic.
- The camera's quaternion is not modelled. Its YXZ Euler angles stand in for it. The fixed default quaternion becomes the two angles it encodes, to double precision.
- PointerLockControls is not modelled: mouse look, lock and unlock, and the polar-angle limits. `Update` receives the orientation and the lock state.
- `setupControls` listeners, `dispose` and `getPosition` are not modelled.
- ship.js and its `update` are not part of this model.
- constants.js is not part of this model. `initialCameraPosition` is a named placement.
- AttackArrows.PlayerShot.Step: the ball's place along the curve is not computed. The caller supplies the ball's distance to each listed ship.
- EnemyShots.EnemyShot.Step: the ball's distance to the player is supplied by the caller.
- AttackArrows.AttackArrow.CannonBallLoaded: when it throws, the model does not record that the ball model stays attached to the ship.
- The wiring of main.js is not modelled. main.js:26 hands the player's mouse handler a `gameState` object rather than the `EnemyManager`, so attack-arrow.js:78 would iterate an undefined `enemies` list. The model passes the manager, as attack-arrow.js evidently expects.
- Disposing geometry and materials becomes sets of mesh ids (attached, disposed). Scene-graph membership becomes flags.
- Enemy ids come from the clock and are not assumed unique.
- Fleet.EnemyManager.RemoveEnemy: assumes the ship asset carries at least two clips. For any clip list it creates the mixer and the death action, although enemy-manager.js:63-64 reads `animations[0]` and `animations[1]`, and what three.js does with a missing clip is not part of this model.
- The immediate-removal branch of removeEnemy is unreachable in practice, since every ship has a clip array. It is modelled behind an optional clip list.
