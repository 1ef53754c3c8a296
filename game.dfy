/** The game state of script.js and everything that changes it: the
    loader callbacks, the keyboard, pointer and wheel handlers, and the
    game-logic part of one animation frame (animate, script.js:188-232).
    Each method is specified by the functions of Spawning, Motion, Player
    and Camera; the lemmas at the top state what a whole frame does to the
    active enemies. */
module GameLoop {
  import opened Config
  import opened Entities
  import opened Bounds
  import opened Spawning
  import opened Motion
  import opened Player
  import opened Camera
  import opened Input

  /** The enemies spawnEnemy adds in a frame: its result when the spawn gate
      opened, nothing otherwise. */
  function Arrivals(models: nat, due: bool, d: SpawnDraws): (added: seq<Enemy>)
    requires ValidDraws(d)
  {
    if due then Spawn(models, d) else []
  }

  /** The active enemies at the end of a frame that started with `es`:
      the arrivals appended, every enemy moved, the departed removed. */
  function EnemiesAfterFrame(es: seq<Enemy>, models: nat, due: bool, d: SpawnDraws, delta: real): seq<Enemy>
    requires ValidDraws(d)
  {
    Remaining(AdvanceAll(es + Arrivals(models, due, d), delta))
  }

  /** A frame never takes the active enemies past MaxEnemies, and adds at
      most one. */
  lemma EnemyCapKept(es: seq<Enemy>, models: nat, timer: real, interval: real, delta: real, d: SpawnDraws)
    requires ValidDraws(d) && |es| <= MaxEnemies
    ensures var after := EnemiesAfterFrame(es, models, SpawnDue(|es|, timer + delta, interval), d, delta);
      |after| <= MaxEnemies && |after| <= |es| + 1
  {
    var due := SpawnDue(|es|, timer + delta, interval);
    RemainingAfterAdvanceLength(es + Arrivals(models, due, d), delta);
  }

  /** A frame keeps every active enemy in play: spawned in range, moved
      forward, and never beyond the despawn plane. */
  lemma FrameKeepsInPlay(es: seq<Enemy>, models: nat, due: bool, d: SpawnDraws, delta: real)
    requires ValidDraws(d) && delta >= 0.0
    requires forall e <- es :: InPlay(e, models)
    ensures forall e <- EnemiesAfterFrame(es, models, due, d, delta) :: InPlay(e, models)
  {
    var all := es + Arrivals(models, due, d);
    var moved := AdvanceAll(all, delta);
    forall e <- EnemiesAfterFrame(es, models, due, d, delta)
      ensures InPlay(e, models)
    {
      RemainingMembers(moved, e);
      var i :| 0 <= i < |moved| && moved[i] == e;
      assert all[i] in es || all[i] in Arrivals(models, due, d);
      assert InPlay(all[i], models);
      assert all[i].speed * delta >= 0.0;
    }
  }

  /** The enemies left after a frame are, in their order, exactly the moved
      enemies that are not past the despawn plane: every survivor is a moved
      enemy, and each moved enemy is its old self with z increased by
      speed * delta. */
  lemma SurvivorsExactly(es: seq<Enemy>, models: nat, due: bool, d: SpawnDraws, delta: real)
    requires ValidDraws(d)
    ensures var all := es + Arrivals(models, due, d);
      var moved := AdvanceAll(all, delta);
      var after := EnemiesAfterFrame(es, models, due, d, delta);
      && |moved| == |all|
      && (forall i :: 0 <= i < |all| ==> moved[i] == all[i].(z := all[i].z + all[i].speed * delta))
      && Subsequence(after, moved)
      && (forall e <- after :: e in moved && e.z <= EnemyDespawnZ)
      && (forall i :: 0 <= i < |all| ==> (moved[i] in after <==> moved[i].z <= EnemyDespawnZ))
  {
    var all := es + Arrivals(models, due, d);
    var moved := AdvanceAll(all, delta);
    RemainingExactly(moved);
    forall e <- Remaining(moved)
      ensures e in moved
    {
      SubsequenceMembers(Remaining(moved), moved, e);
    }
    assert forall i :: 0 <= i < |all| ==> moved[i] == Advance(all[i], delta);
  }

  /** An enemy spawned in a frame is moved in that same frame: it ends the
      frame at EnemySpawnZ + speed * delta, last in the list, unless that
      is already past the despawn plane. */
  lemma SpawnedMovesSameFrame(es: seq<Enemy>, models: nat, d: SpawnDraws, delta: real)
    requires ValidDraws(d) && models > 0
    ensures var spawned := NewEnemy(models, d);
      var after := EnemiesAfterFrame(es, models, true, d, delta);
      && Advance(spawned, delta).z == EnemySpawnZ + spawned.speed * delta
      && (Advance(spawned, delta).z <= EnemyDespawnZ ==> after != [] && Last(after) == Advance(spawned, delta))
      && (Advance(spawned, delta).z > EnemyDespawnZ ==> Advance(spawned, delta) !in after)
  {
    var spawned := NewEnemy(models, d);
    var moved := AdvanceAll(es + [spawned], delta);
    assert Last(moved) == Advance(spawned, delta);
    RemainingMembers(moved, Advance(spawned, delta));
  }

  /** The state of the game that script.js keeps in module-level variables. */
  class Game {
    /** modelsLoaded: set once every model has loaded. */
    var modelsLoaded: bool
    /** Whether playerModel is set. */
    var playerLoaded: bool
    /** enemyModels.length. */
    var enemyModels: nat
    /** playerModel.position.x and .y, and playerModel.rotation.y. */
    var playerX: real
    var playerY: real
    var playerYaw: real
    /** playerInput. */
    var rotateLeft: bool
    var rotateRight: bool
    var isDragging: bool
    /** The length of cameraOffset. */
    var zoom: real
    /** activeEnemies. */
    var enemies: seq<Enemy>
    var spawnTimer: real
    var nextSpawnInterval: real

    /** What every handler and every frame preserves. */
    ghost predicate Valid()
      reads this
    {
      && |enemies| <= MaxEnemies
      && (forall e <- enemies :: InPlay(e, enemyModels))
      && spawnTimer >= 0.0
      && IntervalBase <= nextSpawnInterval < IntervalBase + IntervalSpan
      && (playerLoaded ==> PlayerMinY <= playerY <= PlayerMaxY)
      && MinZoom <= zoom <= MaxZoom
      && enemyModels <= EnemyModelFiles
      && (modelsLoaded ==> playerLoaded && enemyModels == EnemyModelFiles)
    }

    /** The state when the script starts: r is the draw for the first spawn
        interval, and offsetLength is the length of the initial camera
        offset (0, 4, 8), which is the positive root of 80 and lies in the
        zoom range (Camera.InitialLengthInRange). */
    constructor (r: real, offsetLength: real)
      requires IsDraw(r)
      requires MinZoom <= offsetLength <= MaxZoom
      ensures Valid()
      ensures !modelsLoaded && !playerLoaded && enemyModels == 0
      ensures !rotateLeft && !rotateRight && !isDragging
      ensures zoom == offsetLength
      ensures enemies == [] && spawnTimer == 0.0 && nextSpawnInterval == NextInterval(r)
    {
      modelsLoaded, playerLoaded, enemyModels := false, false, 0;
      playerX, playerY, playerYaw := 0.0, 0.0, 0.0;
      rotateLeft, rotateRight, isDragging := false, false, false;
      zoom := offsetLength;
      enemies := [];
      spawnTimer := 0.0;
      nextSpawnInterval := NextInterval(r);
    }

    /** The player model has loaded: it is placed at (0, PlayerMinY, 0) and
        keeps the yaw it was loaded with. */
    method OnPlayerLoaded(yaw: real)
      requires Valid() && !playerLoaded
      modifies this`playerLoaded, this`playerX, this`playerY, this`playerYaw
      ensures Valid()
      ensures playerLoaded && playerX == 0.0 && playerY == PlayerMinY && playerYaw == yaw
    {
      playerLoaded := true;
      playerX, playerY := 0.0, PlayerMinY;
      playerYaw := yaw;
    }

    /** One more enemy model has loaded and is pushed to enemyModels. */
    method OnEnemyModelLoaded()
      requires Valid() && enemyModels < EnemyModelFiles
      modifies this`enemyModels
      ensures Valid()
      ensures enemyModels == old(enemyModels) + 1
    {
      enemyModels := enemyModels + 1;
    }

    /** Every load has resolved (Promise.all): the game starts. */
    method OnAllLoaded()
      requires Valid() && playerLoaded && enemyModels == EnemyModelFiles
      modifies this`modelsLoaded
      ensures Valid() && modelsLoaded
    {
      modelsLoaded := true;
    }

    /** keydown: a left key sets rotateLeft, a right key sets rotateRight,
        any other key changes nothing. */
    method KeyDown(key: string)
      requires Valid()
      modifies this`rotateLeft, this`rotateRight
      ensures Valid()
      ensures rotateLeft == (Role(key) == TurnLeft || old(rotateLeft))
      ensures rotateRight == (Role(key) == TurnRight || old(rotateRight))
    {
      match Role(key)
      case TurnLeft => rotateLeft := true;
      case TurnRight => rotateRight := true;
      case Ignored =>
    }

    /** keyup: a left key clears rotateLeft, a right key clears rotateRight,
        any other key changes nothing. */
    method KeyUp(key: string)
      requires Valid()
      modifies this`rotateLeft, this`rotateRight
      ensures Valid()
      ensures rotateLeft == (Role(key) != TurnLeft && old(rotateLeft))
      ensures rotateRight == (Role(key) != TurnRight && old(rotateRight))
    {
      match Role(key)
      case TurnLeft => rotateLeft := false;
      case TurnRight => rotateRight := false;
      case Ignored =>
    }

    method PointerDown()
      requires Valid()
      modifies this`isDragging
      ensures Valid() && isDragging
    {
      isDragging := true;
    }

    method PointerUp()
      requires Valid()
      modifies this`isDragging
      ensures Valid() && !isDragging
    {
      isDragging := false;
    }

    method PointerLeave()
      requires Valid()
      modifies this`isDragging
      ensures Valid() && !isDragging
    {
      isDragging := false;
    }

    /** pointermove: while dragging a loaded player, move it by the pointer's
        movement and clamp y to the player range; otherwise do nothing. */
    method PointerMove(movementX: Movement, movementY: Movement)
      requires Valid()
      modifies this`playerX, this`playerY
      ensures Valid()
      ensures isDragging && playerLoaded ==>
        playerX == DraggedX(old(playerX), OrZero(movementX)) && playerY == DraggedY(old(playerY), OrZero(movementY))
      ensures !(isDragging && playerLoaded) ==> playerX == old(playerX) && playerY == old(playerY)
    {
      if isDragging && playerLoaded {
        var dx := OrZero(movementX);
        var dy := OrZero(movementY);
        playerX := playerX + dx * DragSensitivityX;
        playerY := playerY - dy * DragSensitivityY;
        playerY := Max(PlayerMinY, Min(PlayerMaxY, playerY));
      }
    }

    /** wheel: rescale the camera offset to its old length plus
        deltaY * 0.01, clamped to the zoom range. */
    method Wheel(deltaY: real)
      requires Valid()
      modifies this`zoom
      ensures Valid()
      ensures zoom == Zoomed(old(zoom), deltaY)
    {
      var amount := deltaY * ZoomPerWheelUnit;
      var current := zoom;
      current := current + amount;
      current := Max(MinZoom, Min(MaxZoom, current));
      zoom := current;
    }

    /** spawnEnemy: with no enemy model loaded, return; otherwise append one
        new enemy drawn from d. */
    method SpawnEnemy(d: SpawnDraws)
      requires ValidDraws(d)
      modifies this`enemies
      ensures enemies == old(enemies) + Spawn(enemyModels, d)
    {
      if enemyModels == 0 {
        return;
      }
      enemies := enemies + [NewEnemy(enemyModels, d)];
    }

    /** The forEach loop of a frame: move every active enemy by speed *
        delta and collect, in order, those now past the despawn plane. */
    method AdvanceEnemies(delta: real) returns (toRemove: seq<Enemy>)
      modifies this`enemies
      ensures enemies == AdvanceAll(old(enemies), delta)
      ensures toRemove == Departed(enemies)
    {
      ghost var present := enemies;
      toRemove := [];
      var i := 0;
      while i < |enemies|
        invariant 0 <= i <= |enemies| == |present|
        invariant forall j :: 0 <= j < i ==> enemies[j] == Advance(present[j], delta)
        invariant forall j :: i <= j < |enemies| ==> enemies[j] == present[j]
        invariant toRemove == Departed(enemies[..i])
      {
        var e := enemies[i];
        var moved := e.(z := e.z + e.speed * delta);
        enemies := enemies[i := moved];
        if moved.z > EnemyDespawnZ {
          toRemove := toRemove + [moved];
        }
        assert Front(enemies[..i + 1]) == enemies[..i] && Last(enemies[..i + 1]) == moved;
        i := i + 1;
      }
      assert enemies[..|enemies|] == enemies;
    }

    /** The second loop of a frame: filter each collected enemy out of the
        active enemies in turn. */
    method RemoveDeparted(toRemove: seq<Enemy>)
      modifies this`enemies
      ensures enemies == Excluding(old(enemies), toRemove)
    {
      ghost var moved := enemies;
      ExcludingDisjoint(moved, toRemove[..0]);
      var k := 0;
      while k < |toRemove|
        invariant 0 <= k <= |toRemove|
        invariant enemies == Excluding(moved, toRemove[..k])
      {
        ExcludingStep(moved, toRemove[..k], toRemove[k]);
        assert toRemove[..k + 1] == toRemove[..k] + [toRemove[k]];
        enemies := Without(enemies, toRemove[k]);
        k := k + 1;
      }
      assert toRemove[..|toRemove|] == toRemove;
    }

    /** The game logic of one animation frame of `delta` seconds: nothing
        before the models are loaded; then the spawn gate, the enemy
        movement and despawn loops, and the player's rotation. d holds the
        draws of a spawn and r the draw of the next interval. */
    method Tick(delta: real, d: SpawnDraws, r: real)
      requires Valid() && delta >= 0.0 && ValidDraws(d) && IsDraw(r)
      modifies this`spawnTimer, this`nextSpawnInterval, this`enemies, this`playerYaw
      ensures Valid()
      ensures !modelsLoaded ==>
        && spawnTimer == old(spawnTimer) && nextSpawnInterval == old(nextSpawnInterval)
        && enemies == old(enemies) && playerYaw == old(playerYaw)
      ensures modelsLoaded ==>
        var due := SpawnDue(|old(enemies)|, old(spawnTimer) + delta, old(nextSpawnInterval));
        && spawnTimer == TimerAfter(|old(enemies)|, old(spawnTimer), old(nextSpawnInterval), delta)
        && nextSpawnInterval == IntervalAfter(|old(enemies)|, old(spawnTimer), old(nextSpawnInterval), delta, r)
        && enemies == EnemiesAfterFrame(old(enemies), enemyModels, due, d, delta)
        && playerYaw == (if playerLoaded then Turned(old(playerYaw), rotateLeft, rotateRight) else old(playerYaw))
    {
      if !modelsLoaded {
        return;
      }
      ghost var before := enemies;

      // Spawn gate.
      spawnTimer := spawnTimer + delta;
      var due := |enemies| < MaxEnemies && spawnTimer > nextSpawnInterval;
      if due {
        SpawnEnemy(d);
        spawnTimer := 0.0;
        nextSpawnInterval := NextInterval(r);
      }
      ghost var present := enemies;
      assert present == before + Arrivals(enemyModels, due, d);
      var toRemove := AdvanceEnemies(delta);
      RemoveDeparted(toRemove);
      ExcludingDeparted(AdvanceAll(present, delta));
      EnemyCapKept(before, enemyModels, old(spawnTimer), old(nextSpawnInterval), delta, d);
      FrameKeepsInPlay(before, enemyModels, due, d, delta);

      // Rotation.
      if playerLoaded {
        if rotateLeft {
          playerYaw := playerYaw + RotationSpeed;
        }
        if rotateRight {
          playerYaw := playerYaw - RotationSpeed;
        }
      }
    }
  }
}
