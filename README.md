# Game-state model of a browser 3D arcade game

The game is a single script (`script.js`) on top of Three.js. A player model
moves inside a height band, a camera follows it, and enemy models spawn far
ahead and fly towards the player until they pass a despawn plane. This
project models the game logic only, as plain numbers:

- the constants of the game (`Config`);
- the enemy record and the random draws that spawning uses (`Entities`);
- `spawnEnemy` and the spawn gate of each frame (`Spawning`);
- moving the enemies and removing the ones that passed the despawn plane (`Motion`);
- turning the player with the keys and moving it by dragging (`Player`);
- the wheel zoom of the camera offset (`Camera`);
- key names and pointer movement readings (`Input`);
- the module-level state and every handler that changes it, including the
  game-logic part of `animate` (`GameLoop.Game`).

JavaScript numbers are exact `real`s. Each `Math.random()` result is a
parameter in [0, 1). The frame's `delta` is a parameter with `delta >= 0`.
The camera offset is kept only as its length. The constructor receives that
length, which for the initial offset (0, 4, 8) is the positive root of
0² + 4² + 8² = 80; it requires only that the length lies in the zoom range,
and `Camera.InitialLengthInRange` shows that √80 does.

The methods of `GameLoop.Game` change the fields they name in their
`modifies` clauses and nothing else. `Valid()` holds after the constructor,
after each of the load events `OnPlayerLoaded`, `OnEnemyModelLoaded` and
`OnAllLoaded`, after every input handler (`KeyDown`, `KeyUp`, `PointerDown`,
`PointerUp`, `PointerLeave`, `PointerMove`, `Wheel`) and after `Tick`. The
methods `SpawnEnemy`, `AdvanceEnemies` and `RemoveDeparted` are steps inside
`Tick` and do not keep `Valid()` on their own: in the middle of a frame the
list may hold enemies already past z = 15, and `SpawnEnemy` itself does not
check the cap of 20 (the spawn gate in `Tick` does).

`Valid()` says that there are at most 20 active enemies and that every
active enemy is in play (`Entities.InPlay`): it was spawned within the
ranges of `Entities.Spawnable` (x in [−20, 20), y in [0.5, 12),
scale in [3.0, 3.8), speed in [7, 10), a model index below the number of
loaded models) and lies between z = −80 and z = 15. It also says that the
spawn timer is non-negative, that the next spawn interval lies in
[0.5, 2.0), that a loaded player has y in [0.5, 12], and that the zoom lies
in [3, 20]. Each method is specified in terms of the pure functions of the
other modules. The lemmas about those functions state the game's
properties.

Two facts about the code that shape the model:

- The yaw changes by `rotationSpeed` once per frame while a key is held. The
  change is not scaled by the frame's length (`script.js:221-222`). So
  `Player.HoldingLeft` counts frames, not seconds.
- The wheel handler rescales the offset with
  `normalize().multiplyScalar(...)` and never checks for a zero-length
  offset (`script.js:157-162`). It needs no such check:
  the offset starts at length √80 and every wheel event clamps its length
  to at least 3, so it is never zero (`Camera.InitialLengthInRange`,
  `Camera.Zoomed`).

## Model

| member | source | states |
|---|---|---|
| Bounds.Clamp | script.js:146 | the result lies in [lo, hi]; it equals v when v is in range, lo below the range, hi above it |
| Bounds.ClampIdempotent | script.js:146 | clamping an already clamped value changes nothing |
| Bounds.ClampNearest | script.js:146 | the clamped value lies between v and any point of the range |
| Spawning.ModelIndex | script.js:169 | `Math.floor(r * enemyModels.length)` is a valid model index and is the floor of the product |
| Spawning.ModelIndexUniform | script.js:169 | every model index k is chosen by exactly the draws in [k/n, (k+1)/n) |
| Spawning.NewEnemy | script.js:169-181 | a spawned enemy has z = −80, x in [−20, 20), y in [0.5, 12), scale in [3.0, 3.8), speed in [7, 10) and a valid model index |
| Spawning.Spawn | script.js:167-185 | spawnEnemy adds nothing exactly when no enemy model is loaded, otherwise one enemy in those ranges |
| Spawning.NextInterval | script.js:203 | the redrawn spawn interval lies in [0.5, 2.0) |
| Spawning.TimerResetsOnSpawn | script.js:199-204 | when the gate opens the timer becomes 0 and the interval is redrawn into [0.5, 2.0), also with no model loaded; otherwise the timer grows by delta and the interval is kept |
| Spawning.TimerStaysNonNegative | script.js:199-202 | with non-negative frame lengths the timer is never negative |
| Spawning.NoSpawnAtCap | script.js:200 | with 20 active enemies nothing spawns and the timer keeps accumulating |
| Spawning.ThirdFrameSpawns | script.js:199-203 | from timer 0 and interval 1.0, frames of 0.4 s spawn on the third frame and not before, and the timer is then 0 |
| Motion.AdvanceMovesForward | script.js:209 | a moving enemy's z strictly increases in a frame of positive length and nothing else about it changes |
| Motion.DepartedMembers | script.js:208-211 | an enemy is collected for removal exactly when it is active and past z = 15 |
| Motion.RemainingMembers | script.js:207-215 | an enemy stays exactly when it is active and not past z = 15 |
| Motion.DespawnPartition | script.js:207-215 | the staying and the removed enemies together are the enemies there were, with multiplicity |
| Motion.RemainingNotPast | script.js:210-214 | no enemy that stays is past the despawn plane |
| Motion.RemainingIsSubsequence | script.js:214 | the enemies that stay keep their relative order |
| Motion.RemainingExactly | script.js:207-215 | the staying enemies are an ordered subsequence, and a moved enemy is among them exactly when it is not past z = 15 |
| Motion.ExcludingStep | script.js:214 | one more `filter(e => e !== enemy)` equals filtering out the longer removal list |
| Motion.ExcludingAgrees | script.js:212-215 | filtering out a list whose members are exactly the past-despawn enemies leaves the staying enemies |
| Motion.ExcludingDeparted | script.js:207-215 | the collect loop and the filter loop together remove exactly the enemies past the despawn plane |
| Motion.RemainingAfterAdvanceLength | script.js:207-215 | moving and despawning never make the enemy list longer |
| Player.TurnedCases | script.js:221-222 | in one frame, left alone adds rotationSpeed, right alone subtracts it, both or neither leave the yaw unchanged |
| Player.HoldingLeft | script.js:221 | holding only left for n frames increases the yaw by exactly n · rotationSpeed |
| Player.HoldingRight | script.js:222 | holding only right for n frames decreases the yaw by exactly n · rotationSpeed |
| Player.HoldingBothOrNeither | script.js:221-222 | holding both keys, or neither, for any number of frames leaves the yaw unchanged |
| Player.DraggedY | script.js:144-146 | a drag move leaves y in [0.5, 12] |
| Player.DraggedYCases | script.js:144-146 | a drag moves y to y − dy·0.012 when that is in range, and otherwise to the nearer end |
| Player.DragsStayInRange | script.js:139-147 | any sequence of drag moves keeps y in [0.5, 12] |
| Camera.Zoomed | script.js:158-161 | after a wheel event the offset length lies in [3, 20], and equals len + deltaY·0.01 when that is in range |
| Camera.InitialLengthInRange | script.js:18-20 | the initial offset length √80 lies in [3, 20] with room for one more unit |
| Camera.WheelFromInitialOffset | script.js:157-162 | a wheel delta of +100 from the initial offset adds exactly 1 to its length |
| Camera.ZoomOutSaturates | script.js:157-162 | non-negative wheel deltas add up until the length reaches 20, i.e. the result is min(20, len + 0.01 · sum) |
| Camera.StaysAtMaxZoom | script.js:161 | at 20, repeated zoom-out wheel events stay at 20 |
| Camera.ZoomStaysInRange | script.js:157-162 | any sequence of wheel events keeps the length in [3, 20] |
| Input.LeftKeys | script.js:123-124 | "a", "A" and "ArrowLeft" turn left |
| Input.RightKeys | script.js:123-125 | "d", "D" and "ArrowRight" turn right |
| Input.OtherKeys | script.js:123-126 | other keys such as "w" and "ArrowUp" do nothing |
| Input.RoleCaseInsensitive | script.js:123 | two key names that differ only in letter case play the same role |
| Input.LowerIdempotent | script.js:123 | lower-casing is idempotent, so a name and its lower-cased form play the same role |
| GameLoop.EnemyCapKept | script.js:200-215 | a frame never takes the active enemies past 20 and adds at most one |
| GameLoop.FrameKeepsInPlay | script.js:169-215 | after a frame every active enemy is still in play (spawn ranges, −80 ≤ z ≤ 15) |
| GameLoop.SurvivorsExactly | script.js:207-215 | after a frame the enemies are, in order, the moved enemies (old z + speed·delta, other fields kept) not past z = 15: every survivor is a moved enemy, and every such moved enemy is there |
| GameLoop.SpawnedMovesSameFrame | script.js:199-215 | an enemy spawned in a frame is moved in that frame and ends it last in the list unless already past z = 15 |
| GameLoop.Game.constructor | script.js:18-43 | the initial state: nothing loaded, no enemies, timer 0, interval drawn into [0.5, 2.0), zoom equal to the initial offset length, no key or drag held, and `Valid()` |
| GameLoop.Game.OnPlayerLoaded | script.js:86-94 | the loaded player stands at (0, 0.5) with the yaw it was loaded with |
| GameLoop.Game.OnEnemyModelLoaded | script.js:99-103 | one more enemy model is available |
| GameLoop.Game.OnAllLoaded | script.js:107-112 | once everything has loaded the game starts |
| GameLoop.Game.KeyDown | script.js:121-127 | a left key sets only rotateLeft, a right key sets only rotateRight, other keys change nothing |
| GameLoop.Game.KeyUp | script.js:128-133 | a left key clears only rotateLeft, a right key clears only rotateRight, other keys change nothing |
| GameLoop.Game.PointerDown | script.js:136-138 | pointer down starts dragging |
| GameLoop.Game.PointerUp | script.js:149-151 | pointer up stops dragging |
| GameLoop.Game.PointerLeave | script.js:152-154 | the pointer leaving stops dragging |
| GameLoop.Game.PointerMove | script.js:139-148 | only while dragging a loaded player, x += dx·0.012 and y becomes clamp(y − dy·0.012, 0.5, 12); a missing movement counts as 0 |
| GameLoop.Game.Wheel | script.js:157-163 | the offset length becomes clamp(len + deltaY·0.01, 3, 20) |
| GameLoop.Game.SpawnEnemy | script.js:167-185 | spawnEnemy appends what `Spawning.Spawn` gives: nothing without models, one in-range enemy otherwise |
| GameLoop.Game.AdvanceEnemies | script.js:207-211 | every enemy moves by speed·delta and the collected list is exactly the moved ones past z = 15, in order |
| GameLoop.Game.RemoveDeparted | script.js:212-215 | the collected enemies are filtered out one after the other |
| GameLoop.Game.Tick | script.js:188-222 | before loading nothing changes; afterwards the timer, interval, enemies and yaw become what the spawn gate, movement, despawn and rotation rules give, and `Valid()` is kept |

## Left out

- Rendering: the Three.js scene, renderer, lights, fog, ground plane and its texture scroll, and the resize handler (`script.js:5-15`, `57-79`, `196`, `231`, `235-239`). They only drive an external library.
- Model loading (`script.js:82-117`): the GLTF loads and `Promise.all` are asynchronous I/O. Only their outcomes are modelled, as the events `OnPlayerLoaded`, `OnEnemyModelLoaded` and `OnAllLoaded`. A failed load is a missing `OnAllLoaded`, after which frames change nothing. The console log and the alert are not modelled.
- Camera follow (`script.js:224-228`): the quaternion rotation of the offset and `lookAt` are library vector math. The offset is kept only as its length, and its direction is not modelled.
- Timing: `requestAnimationFrame`, `clock.getDelta()` and `performance.now()`. The frame length is a parameter.
- `Math.random()`: every draw is a parameter in [0, 1).
- IEEE-754 floating point: all arithmetic is exact, so no result is claimed to be float-exact. `Math.PI` is the real number of its double literal.
- Object identity of enemies: they are values. The source removes an enemy with `filter(e => e !== enemy)` by identity. The model filters by value equality. Two equal enemy values have the same z, so both filters remove the same enemies.
- `Input.Lower`: lower-cases ASCII letters only, not the whole Unicode mapping of `toLowerCase()`. No non-ASCII character lower-cases to one of the single characters of "a", "d", "arrowleft" or "arrowright". So the four key names are matched exactly as in the source.
- `GameLoop.Game.PointerMove`: `|| 0` also turns a NaN movement into 0. NaN does not exist among reals, so only a missing movement is modelled.
- The wheel event's `deltaMode` and the scroll units of the browser are not modelled. `deltaY` is taken as given.
