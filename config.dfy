/** The tuning constants of the game (script.js, lines 17-40 and the
    numeric literals of spawnEnemy, animate and the input handlers).
    JavaScript numbers are modelled as exact reals. */
module Config {

  // Camera offset and zoom range.
  const InitialOffsetX: real := 0.0
  const InitialOffsetY: real := 4.0
  const InitialOffsetZ: real := 8.0
  const MinZoom: real := 3.0
  const MaxZoom: real := 20.0
  /** A wheel event changes the offset length by deltaY times this factor. */
  const ZoomPerWheelUnit: real := 0.01

  // Player.
  /** Math.PI, written as the double literal it denotes. */
  const Pi: real := 3.141592653589793
  /** Yaw change per frame while a rotate key is held (not scaled by elapsed time). */
  const RotationSpeed: real := Pi / 100.0
  const PlayerMinY: real := 0.5
  const PlayerMaxY: real := 12.0
  const DragSensitivityX: real := 0.012
  const DragSensitivityY: real := 0.012

  // Enemies.
  const MaxEnemies: nat := 20
  const EnemySpawnZ: real := -80.0
  const EnemyDespawnZ: real := 15.0
  /** Number of enemy model files the game loads (enemyModelPaths). */
  const EnemyModelFiles: nat := 3

  // Ranges of the random draws in spawnEnemy and animate:
  // a draw r in [0, 1) becomes Base + r * Span; the x draw is first
  // shifted by SpawnXDrawOffset, so that x lies in [-20, 20).
  const ScaleBase: real := 3.0
  const ScaleSpan: real := 0.8
  const SpawnXDrawOffset: real := 0.5
  const SpawnXSpan: real := 40.0
  const SpeedBase: real := 7.0
  const SpeedSpan: real := 3.0
  const IntervalBase: real := 0.5
  const IntervalSpan: real := 1.5
}
