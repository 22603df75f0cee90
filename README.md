# Untitled Sheep game — a verified model of the game logic

This project models the deterministic game logic of a Unity sheep-herding
game in Dafny and proves properties of it. The player charges through a
flock of boids (sheep). The boids steer by the classic flocking rules and
avoid obstacles with a fan of rays. A countdown decides when a round is lost.
Between rounds the player picks upgrades. A grid of waypoint nodes is laid
onto the ground.

The model has one module per component:

| file | module | component |
|---|---|---|
| `scene.dfy` | `Scene` | vectors over the reals, `Clamp01`, `Lerp`, the cross product with the up axis, transforms |
| `boid.dfy` | `Flocking` | `Boid`: alignment, cohesion, separation, target seeking, the 20-ray obstacle scan with its speed throttle, and the force blend of the physics step |
| `boid_manager.dfy` | `Spawning` | `BoidManager.SpawnBoids`: spawning, target assignment, debug flags |
| `node_placer.dfy` | `Waypoints` | `NodePlacer`: the row-major waypoint grid, the ground probe, clearing and the rendering toggle |
| `round.dfy` | `Round` | `TimeManager` and `GameManager` as one `Session`: the countdown as an explicit one-second `Tick`, the lose latch, win and restart |
| `upgrades.dfy` | `Upgrades` | `UpgradeManager`: the upgrade switch, the cooldown cap, reset and the cheat switch |
| `player.dfy` | `Charging` | the player (class `PlayerTest` in `Player.cs`): the charge guard and lifecycle, once-per-charge damage, the knockback scale, gravity and the stat upgrades |

Float fields are `real`. The components that the code changes in place are
classes with `modifies` clauses. Each ordinary loop of the source is a `while`
loop, proved against a specification function over the prefix it has
consumed. The two coroutine loops (the countdown of TimeManager.cs:73-84 and
the charge of Player.cs:70-76) wait a second or a frame per pass. Each becomes
one step per pass instead (`Round.Session.Tick`, `Charging.Player.ResumeCharge`),
and the function `Round.Ticks` states where a run of countdown steps leads.
Engine services enter as parameters:

- `Vector3.Distance` is an oracle `dist`.
- `.normalized` is an oracle `norm`.
- `Quaternion.Euler(0, a, 0) * v` is an oracle `rotate`.
- Raycast results are a sequence of `RayResult`.
- The downward ground ray is a `probe`.
- `Physics.OverlapSphere` gives a sequence of `Collider` values. Each holds the collider's `Boid` component or null, that boid's position, and whether it has a `Rigidbody`. A boid's rigidbody is known only through these values; the `Boid` class has no field for it.
- The scene search for "Nodes" gives a `Container?`.
- Random numbers are parameters constrained to their range.

Some calls go to members the code base does not define, to the UI or to the
physics engine. Each such call is recorded in a ghost event log and not
given behaviour:

- `Boid.TakeDamage`
- `BoidManager.Instance.ResetRound`
- `GameManager.StartNextRound`
- `UIManager` screens
- `Rigidbody.AddForce`
- `CharacterController.Move`
- `Physics.IgnoreLayerCollision`

Coroutines become explicit steps:

- The countdown is `Round.Session.Tick`, one elapsed `WaitForSeconds(1)`.
- The charge attack is `Charging.Player.PressCharge`, which runs up to the first `yield`.
- Each later frame of the charge is `Charging.Player.ResumeCharge`.

## Model

| member | source | states |
|---|---|---|
| `Scene.CrossUp` | Assets/Sheep/Scripts/Boid.cs:209 | `Vector3.Cross(Vector3.up, d)` is horizontal and perpendicular to `d` |
| `Scene.Clamp01` | Assets/Player/Player.cs:119 | the result lies in [0, 1], equals the input inside that range, and is 0 below it and 1 above it |
| `Flocking.Boid.constructor` | Assets/Sheep/Scripts/Boid.cs:11-29 | the inspector defaults: speed 3.4, rotation speed 5, radii 12.69 and 1.56, the tags Obstacle/Wall/Tree, the five weights, check distance 4, debug drawing off |
| `Flocking.Boid.Instantiate` | Assets/Sheep/Scripts/BoidManager.cs:25 | a fresh boid with the prefab's settings, at the given position with the identity rotation, so facing +z |
| `Flocking.Boid.Align` | Assets/Sheep/Scripts/Boid.cs:87-103 | the loop returns `AlignForce`: the normalised mean velocity of the boids other than itself strictly inside the neighbour radius, or zero when there are none |
| `Flocking.Boid.Cohere` | Assets/Sheep/Scripts/Boid.cs:106-122 | the loop returns `CohereForce`: the direction from the boid to its neighbours' centre, or zero |
| `Flocking.Boid.Separate` | Assets/Sheep/Scripts/Boid.cs:125-142 | the loop returns `SeparateForce`: the normalised sum of the distance-weighted repulsions from boids strictly inside the avoidance radius, or zero |
| `Flocking.Boid.SeekTarget` | Assets/Sheep/Scripts/Boid.cs:80-83 | the normalised direction to the target, and zero when there is no target (the guard of line 50) |
| `Flocking.Boid.AvoidObstacles` | Assets/Sheep/Scripts/Boid.cs:145-217 | the scan of the 20 rays returns the avoidance force of `Decide` on the rays and sets the speed to `NextSpeed` of the old speed |
| `Flocking.ScanRays` | Assets/Sheep/Scripts/Boid.cs:154-195 | the ray loop yields whether a tagged obstacle was hit, the nearest tagged distance, the direction of the first farthest tagged hit, and whether a clear ray exists with the direction of the last one |
| `Flocking.Boid.Steer` | Assets/Sheep/Scripts/Boid.cs:44-59 | the acceleration is `Blend` of the five forces on the state before the step, and the speed is throttled as in `AvoidObstacles` |
| `Flocking.NoNeighboursIff` | Assets/Sheep/Scripts/Boid.cs:92-102 | the neighbour count is 0 exactly when no other boid is strictly inside the radius |
| `Flocking.SelfIgnored` | Assets/Sheep/Scripts/Boid.cs:92-134 | the boid's own entry, wherever it stands in the list, changes none of the counts and sums |
| `Flocking.SelfNeverSteers` | Assets/Sheep/Scripts/Boid.cs:87-142 | the alignment, cohesion and separation forces are the same with or without the boid's own entry |
| `Flocking.LonelyBoidForcesAreZero` | Assets/Sheep/Scripts/Boid.cs:102-141 | with no other boid strictly inside the radius, each of the three forces is the zero vector |
| `Flocking.BoundaryExcluded` | Assets/Sheep/Scripts/Boid.cs:95-134 | the radius test is strict: a boid exactly at the radius changes no count or sum, and none of the alignment, cohesion and separation forces (the repulsion sum included) |
| `Flocking.AlignThreeNeighbours` | Assets/Sheep/Scripts/Boid.cs:92-102 | a worked case: neighbours moving along +x, +z and −x give the direction of (0, 0, 1/3) |
| `Flocking.AppendOne` | Assets/Sheep/Scripts/Boid.cs:92-100 | one more boid at the end of the list adds to the count and the velocity sum exactly when it is a neighbour |
| `Flocking.RayFanSpan` | Assets/Sheep/Scripts/Boid.cs:154-163 | the twenty rays run from −60 to +60 degrees in increasing order |
| `Flocking.LastClearIsLast` | Assets/Sheep/Scripts/Boid.cs:186-191 | the chosen clear ray is a miss with no miss after it, and there is none exactly when every ray hits |
| `Flocking.MaxTaggedIsMax` | Assets/Sheep/Scripts/Boid.cs:176-181 | the running maximum bounds every tagged hit distance and, when positive, is attained |
| `Flocking.MinTaggedIsMin` | Assets/Sheep/Scripts/Boid.cs:172-174 | the running minimum is the smallest tagged hit distance whenever there is a tagged hit |
| `Flocking.MinTaggedNoHit` | Assets/Sheep/Scripts/Boid.cs:158 | without a tagged hit the minimum stays at `float.MaxValue` |
| `Flocking.FarthestIsFirstMaximal` | Assets/Sheep/Scripts/Boid.cs:176-181 | the best direction comes from the first tagged hit of maximal distance; there is none exactly when that maximum is 0 |
| `Flocking.TowardClearIffLastClear` | Assets/Sheep/Scripts/Boid.cs:197-206 | the boid heads for ray `k` exactly when a tagged hit exists and `k` is the last clear ray |
| `Flocking.LateralWhenBoxedIn` | Assets/Sheep/Scripts/Boid.cs:208-210 | with a tagged hit and no clear ray, the force is 2.5 times the normalised lateral of the farthest ray |
| `Flocking.ThrottleBounds` | Assets/Sheep/Scripts/Boid.cs:199-201 | while an obstacle is detected the new speed is at least 0.5, and at most the old speed when that was at least 0.5 |
| `Flocking.RelaxWithoutObstacle` | Assets/Sheep/Scripts/Boid.cs:213-216 | without a tagged hit the speed moves halfway towards 2 and the avoidance force is zero |
| `Flocking.SameViewSameScan` | Assets/Sheep/Scripts/Boid.cs:160-195 | two scans that agree on clear rays, tagged hits and their distances reach the same clear ray, extremes and farthest ray |
| `Flocking.UntaggedHitIgnored` | Assets/Sheep/Scripts/Boid.cs:165-168 | replacing an untagged hit by another untagged hit at any distance changes neither the decision nor the speed |
| `Flocking.BlendWeighsAvoidance` | Assets/Sheep/Scripts/Boid.cs:53-59 | a zero avoidance force leaves the weighted sum; a non-zero one gives 0.2 times the sum plus 0.8 times the avoidance |
| `Spawning.DebugPrefix` | Assets/Sheep/Scripts/BoidManager.cs:31 | `Mathf.Min(5, count)`: at most 5, at most the count, and one of the two |
| `Spawning.SpawnPointInDisc` | Assets/Sheep/Scripts/BoidManager.cs:23-24 | every spawn point has y = 1 and lies horizontally within the spawn radius of the manager |
| `Spawning.BoidManager.constructor` | Assets/Sheep/Scripts/BoidManager.cs:6-12 | 20 boids, spawn radius 5, an empty list |
| `Spawning.BoidManager.SpawnBoids` | Assets/Sheep/Scripts/BoidManager.cs:19-35 | appends `boidCount` fresh, distinct boids after the unchanged old entries, each with the manager's target, its spawn point, the identity rotation (facing +z), a body at rest and the prefab's speed, rotation speed, radii, tags, weights and check distance; flags exactly the first min(5, count) entries; other old boids keep their flag |
| `Spawning.BoidManager.SpawnNew` | Assets/Sheep/Scripts/BoidManager.cs:21-28 | the spawn loop appends `boidCount` fresh, pairwise distinct boids after the unchanged old list, each with the target, its spawn point, the identity rotation (facing +z), a body at rest and the prefab's speed, rotation speed, radii, tags, weights, check distance and debug flag |
| `Spawning.BoidManager.FlagFirst` | Assets/Sheep/Scripts/BoidManager.cs:30-34 | the first min(5, count) boids of the list have debug drawing on, and every other boid in the list keeps its flag |
| `Waypoints.Node.constructor` | Assets/Sheep/Prefabs/BFS/NodePlacer.cs:100-129 | a node at the hit point, with an enabled renderer |
| `Waypoints.SurfacePosition` | Assets/Sheep/Prefabs/BFS/NodePlacer.cs:91-99 | the ground hit below the candidate, probed from ten units above the placer, or the zero vector on a miss |
| `Waypoints.NodePlacer.constructor` | Assets/Sheep/Prefabs/BFS/NodePlacer.cs:11-22 | a 5 × 5 grid, spacing 2, area (10, 1, 10), rendering on, no container |
| `Waypoints.NodePlacer.GenerateNodes` | Assets/Sheep/Prefabs/BFS/NodePlacer.cs:39-61 | the container holds exactly this call's nodes, at the `GridPositions` of the grid in order, each fresh and rendered as `renderNodes` says |
| `Waypoints.PlaceGrid` | Assets/Sheep/Prefabs/BFS/NodePlacer.cs:46-58 | the row loop keeps the old children in front and appends nodes at exactly the `GridPositions` of all rows, each fresh and rendered |
| `Waypoints.PlaceRow` | Assets/Sheep/Prefabs/BFS/NodePlacer.cs:48-57 | the column loop keeps the old children in front and appends nodes at exactly the `RowPositions` of the row, each fresh and rendered |
| `Waypoints.NodePlacer.FindOrCreateParent` | Assets/Sheep/Prefabs/BFS/NodePlacer.cs:63-75 | the container found in the scene, or a fresh empty one |
| `Waypoints.NodePlacer.ClearExistingNodes` | Assets/Sheep/Prefabs/BFS/NodePlacer.cs:77-89 | the container is left with no children; nothing happens without a container |
| `Waypoints.NodePlacer.SetNodeRendering` | Assets/Sheep/Prefabs/BFS/NodePlacer.cs:132-144 | every child with a renderer gets the given state and nothing else changes; nothing happens without a container |
| `Waypoints.RowSize` | Assets/Sheep/Prefabs/BFS/NodePlacer.cs:48-57 | a row places at most one node per column |
| `Waypoints.GridSize` | Assets/Sheep/Prefabs/BFS/NodePlacer.cs:46-58 | at most rows × columns nodes are placed |
| `Waypoints.RowMembers` | Assets/Sheep/Prefabs/BFS/NodePlacer.cs:48-57 | a position is in a row exactly when it is not zero and is the surface position of one of the row's cells |
| `Waypoints.GridMembers` | Assets/Sheep/Prefabs/BFS/NodePlacer.cs:46-58 | a position is a node exactly when it is not zero and is the surface position of some cell, so a genuine hit at the world origin is dropped |
| `Waypoints.FullRow` | Assets/Sheep/Prefabs/BFS/NodePlacer.cs:48-57 | when every probe of a row hits away from the origin, the row holds one node per column, in column order |
| `Waypoints.GridLength` | Assets/Sheep/Prefabs/BFS/NodePlacer.cs:46-58 | when every probe hits, the grid has one node per cell of each row, row after row |
| `Waypoints.GridCell` | Assets/Sheep/Prefabs/BFS/NodePlacer.cs:46-58 | when every probe hits, the node after the nodes of the first r rows, at column c, is the surface position of cell (r, c) |
| `Waypoints.RowMajorOrder` | Assets/Sheep/Prefabs/BFS/NodePlacer.cs:44-58 | when every probe hits, cell (r, c) becomes node number r · columns + c at `startPos + (c · spacing, 0, r · spacing)` projected to the ground |
| `Round.TicksToExpire` | Assets/Game/TimeManager.cs:73-82 | the number of one-second ticks a countdown of `d` seconds lasts is the least whole number not below `d` |
| `Round.TickStep` | Assets/Game/TimeManager.cs:73-84 | a tick takes exactly one second off, fires expiry exactly when the time reaches zero or below, and then ends the countdown; without a countdown nothing changes |
| `Round.ExpiresAtMostOnce` | Assets/Game/TimeManager.cs:73-84 | however many ticks follow, expiry fires at most once, and never once the countdown has ended |
| `Round.CountdownLength` | Assets/Game/TimeManager.cs:73-84 | a countdown of `d` seconds keeps running for fewer than `TicksToExpire(d)` ticks and has expired exactly once, and stopped, after that many |
| `Round.Session.constructor` | Assets/Game/TimeManager.cs:8-10 | no time, not running, no countdown, not paused, time scale 1 |
| `Round.Session.Start` | Assets/Game/TimeManager.cs:24-27 | a first countdown of 30 seconds |
| `Round.Session.StartTimer` | Assets/Game/TimeManager.cs:30-46 | a duration of 0 or less changes nothing; a positive one sets the time and running, and replaces any countdown by a new one |
| `Round.Session.StopTimer` | Assets/Game/TimeManager.cs:49-58 | no countdown and not running, whatever the state before, so a second call changes nothing |
| `Round.Session.AddTime` | Assets/Game/TimeManager.cs:61-68 | adds exactly a positive amount and ignores any other |
| `Round.Session.Tick` | Assets/Game/TimeManager.cs:71-85 | the timer moves as `TickTimer`; when expiry fires it is logged for the running countdown, and the game is lost unless already paused; no countdown ever expires twice |
| `Round.Session.TimerExpired` | Assets/Game/TimeManager.cs:88-96 | the expiry is logged, and the lose latch is triggered only when the game is not paused |
| `Round.Session.GetRemainingTime` | Assets/Game/TimeManager.cs:99-102 | returns the remaining time and changes nothing |
| `Round.Session.TriggerWin` | Assets/Game/GameManager.cs:26-31 | the timer is stopped and the win screen shown, which sets the time scale to 0; GameManager's own pause flag is not set |
| `Round.Session.TriggerLose` | Assets/Game/GameManager.cs:35-43 | a latch: when paused nothing changes; otherwise the game is paused, the time scale is 0 and the game-over screen is shown once |
| `Round.Session.IsGamePaused` | Assets/Game/GameManager.cs:46-49 | returns the pause flag and changes nothing |
| `Round.Session.RestartRound` | Assets/Game/GameManager.cs:66-76 | with a boid count from [5, 20]: time scale 1, the latch cleared, the flock reset with that count, and a new 20-second countdown running |
| `Upgrades.Step` | Assets/Game/UpgradeManager.cs:30-54 | an upgrade name has a positive step exactly when the switch recognises it |
| `Upgrades.OneStatPerUpgrade` | Assets/Game/UpgradeManager.cs:30-54 | an effective upgrade changes exactly one stat and raises the total by the name's step; an unknown name, or Cooldown at the cap, changes nothing |
| `Upgrades.NamedStat` | Assets/Game/UpgradeManager.cs:32-52 | Time +1.5, Bite +2, Charge +2.5, Range +0.5, Cooldown +10 below the cap |
| `Upgrades.NeverLower` | Assets/Game/UpgradeManager.cs:32-52 | no run of upgrades lowers any stat |
| `Upgrades.CooldownCapped` | Assets/Game/UpgradeManager.cs:48-52 | from the reset values, any run of upgrades leaves the cooldown bonus a multiple of 10 in [0, 60] |
| `Upgrades.CooldownSaturates` | Assets/Game/UpgradeManager.cs:48-52 | n cooldown upgrades from the reset values give min(n, 6) × 10 and change no other stat |
| `Upgrades.AfterUpgrade` | Assets/Game/UpgradeManager.cs:57-60 | the next round is requested exactly when cheat mode is off, whatever the name |
| `Upgrades.UpgradeManager.constructor` | Assets/Game/UpgradeManager.cs:11-17 | the stats (1, 0, 0, 0, 0), cheat mode off |
| `Upgrades.UpgradeManager.ApplyUpgrade` | Assets/Game/UpgradeManager.cs:29-61 | the stats move as `Upgraded`, cheat mode is unchanged, and the win screen is hidden and the next round requested exactly when cheat mode is off |
| `Upgrades.UpgradeManager.ResetUpgrades` | Assets/Game/UpgradeManager.cs:63-69 | the stats are back to (1, 0, 0, 0, 0); cheat mode is unchanged |
| `Upgrades.UpgradeManager.ChangeCheat` | Assets/Game/UpgradeManager.cs:72-74 | cheat mode is negated and nothing else changes, so two calls cancel out |
| `Charging.ForceScale` | Assets/Player/Player.cs:118-119 | the knockback scale lies in [0, 1] |
| `Charging.ForceScaleFades` | Assets/Player/Player.cs:119 | the scale never grows with distance, is 1 at distance 0 or less and 0 from the knockback radius outwards |
| `Charging.EdgeOnlyLifts` | Assets/Player/Player.cs:114-122 | a boid at or beyond the knockback radius only gets the upward kick |
| `Charging.NonNullMembers` | Assets/Player/Player.cs:103-106 | the boids found are exactly the non-null query results |
| `Charging.KnockDamaged` | Assets/Player/Player.cs:105-110 | one query result damages its boid exactly once when that boid exists and was not hit before, and damages nothing otherwise |
| `Charging.KnockStep` | Assets/Player/Player.cs:103-125 | one loop iteration followed by the pass over the remaining results gives the pass from that iteration on, and the hit set grows by that result's boid |
| `Charging.HitEventsDamaged` | Assets/Player/Player.cs:103-110 | one knockback pass damages exactly the boids found that were not hit before |
| `Charging.HitEventsDamageOnce` | Assets/Player/Player.cs:106-109 | one knockback pass damages each such boid exactly once, however often the query lists it |
| `Charging.KnockbackPassOnce` | Assets/Player/Player.cs:106-109 | if so far exactly the hit boids were damaged, once each, then after a pass exactly the new hit set is, still once each |
| `Charging.FrameOnce` | Assets/Player/Player.cs:70-76 | a charge frame (a move, then a knockback pass) keeps "exactly the hit boids were damaged since the charge began, once each" |
| `Charging.Player.constructor` | Assets/Player/Player.cs:7-19 | damage 2, impact 10, radius 5, upward force 5, speed 5, gravity 9.81, not charging, no hits |
| `Charging.Player.ApplyGravity` | Assets/Player/Player.cs:41-49 | on the ground the vertical velocity is 0; in the air gravity lowers it and the player is moved by it |
| `Charging.Player.PressCharge` | Assets/Player/Player.cs:52-55 | ignored while charging; otherwise a charge begins and its first frame runs |
| `Charging.Player.StartCharge` | Assets/Player/Player.cs:60-68 | charging, an empty hit set, boid collisions ignored, charge speed three times the speed, no time elapsed |
| `Charging.Player.ResumeCharge` | Assets/Player/Player.cs:70-81 | another frame while less than 0.5 s has elapsed; otherwise boid collisions are restored and charging ends |
| `Charging.Player.ChargeFrame` | Assets/Player/Player.cs:70-76 | a move at charge speed, a knockback pass and the frame time added; each boid is still damaged at most once in the charge |
| `Charging.Player.ApplyKnockback` | Assets/Player/Player.cs:99-126 | every boid found joins the hit set, and the log grows by `HitEvents`: damage and knockback for each boid not hit before |
| `Charging.Player.KnockOne` | Assets/Player/Player.cs:105-124 | a boid that exists and was not hit joins the hit set and is damaged, then knocked back when it has a rigidbody; otherwise nothing changes |
| `Charging.Player.UpgradeDamage` | Assets/Player/Player.cs:87-90 | damage grows by exactly 1 |
| `Charging.Player.UpgradeRange` | Assets/Player/Player.cs:92-95 | speed grows by exactly 1; the knockback radius is unchanged |

The class invariants `Round.Session.Valid` and `Charging.Player.Valid` are
kept by every method of their class:

- In `Round.Session.Valid`, a running countdown has time left and has not expired, and no countdown ever expires twice.
- In `Charging.Player.Valid`, boid collisions are ignored exactly while a charge runs. Since the latest charge began, exactly the boids in the hit set have been damaged, each exactly once.

## Left out

- Floating point: every float is a `real`, so rounding, infinities and NaN are not modelled.
- Integer widths: integers are unbounded.
- Vector equality: Unity's `==` on vectors is approximate (within 1e-5). The model compares vectors exactly, in the avoidance test of `Blend` and in the zero-vector sentinel of `GenerateNodes`.
- Flocking.Boid.AvoidObstacles: requires a positive `obstacleCheckDistance`, so inspector values of 0 and below are not modelled. With 0, the raycast can only report hits at distance 0, and the throttle of Boid.cs:199 then computes 0/0 (NaN), which real arithmetic cannot express. A negative value gives no hits, and the source takes the relax branch without dividing.
- Flocking.Boid.Steer: requires a positive `obstacleCheckDistance`, for the same reason.
- Flocking.Boid.Separate: a neighbour at distance exactly 0 gives a NaN term in the source, because it divides by the distance. The model counts it and adds a zero term.
- Velocity integration and rotation in `FixedUpdate` (Boid.cs:61-73) are left out: they are normalisation, `LookRotation` and `Slerp` numerics. So is the rigid-body setup in `Start` (Boid.cs:34-40).
- Debug ray drawing (Boid.cs:183-184, 192-193) is left out: it is rendering only.
- Spawning.BoidManager.SpawnBoids: parenting the new boids under the manager's transform is not modelled.
- Waypoints.NodePlacer.ClearExistingNodes: models the editor's `DestroyImmediate`, which removes the children at once. The player build's `Destroy` is deferred to the end of the frame.
- Materials and shaders, the collider removal and scale of debug nodes, gizmos and the editor inspector (NodePlacer.cs:104-127, 146-185) are left out: they are rendering and editor tooling.
- `OnEnable` and `OnDisable` of the placer are left out: they only call `SetNodeRendering(true)` and `SetNodeRendering(false)`.
- Singletons: the `Instance` properties and the `Awake` duplicate checks are left out. The model assumes exactly one instance of each manager, so the null-instance branches of `?.` calls and of `TimerExpired` are not modelled.
- Round.Session.Tick: the coroutine's `WaitForSeconds(1)` is scaled by `Time.timeScale`. The model keeps the time scale as a field but does not connect it to when ticks happen.
- `BoidManager.ResetRound`, `GameManager.StartNextRound` and `Boid.TakeDamage` are only logged: these members are not part of this model's code base.
- The `UIManager` calls are logged, and their screens, texts and fades are left out. Of their effects the model keeps only the time scale: `ShowWinScreen` and `ShowGameOverScreen` set it to 0 (UIManager.cs:171-181). `BoidCulling.cs` and `PlayerTest.cs` (a collision callback) are not part of this model.
- Player movement from the input axes (Player.cs:35-39) is left out: it is keyboard input and `CharacterController` physics.
- The player's position after `CharacterController.Move` is an input: collisions decide where the player ends up.
- Charging.Player.Valid: keeps a positive `knockbackRadius` as an invariant. The code never changes the radius. With an inspector value of 0, a boid at distance exactly 0 gets a NaN knockback scale (0/0), and a boid at any positive distance gets `Clamp01(-infinity)`, which is 0.
- Frame timing: `Time.deltaTime` is a parameter `dt`, and wall-clock behaviour is not modelled.
- `Debug.Log` output is left out.
