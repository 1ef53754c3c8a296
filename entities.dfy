/** The value types of the game: an active enemy instance and the random
    draws that spawning consumes. */
module Entities {
  import opened Config

  /** An active enemy: its position, its uniform scale, and the userData
      record that spawnEnemy attaches (speed, and `kind`, the index of the
      enemy model it was cloned from). */
  datatype Enemy = Enemy(x: real, y: real, z: real, scale: real, speed: real, kind: nat)

  /** One result of Math.random(). */
  predicate IsDraw(r: real) {
    0.0 <= r < 1.0
  }

  /** The five Math.random() results spawnEnemy consumes, in the order it
      draws them. */
  datatype SpawnDraws = SpawnDraws(kind: real, scale: real, x: real, y: real, speed: real)

  predicate ValidDraws(d: SpawnDraws) {
    IsDraw(d.kind) && IsDraw(d.scale) && IsDraw(d.x) && IsDraw(d.y) && IsDraw(d.speed)
  }

  /** The attributes a freshly spawned enemy has and keeps for its lifetime
      (everything but z), when `models` enemy models are loaded. */
  predicate Spawnable(e: Enemy, models: nat) {
    && -20.0 <= e.x < 20.0
    && PlayerMinY <= e.y < PlayerMaxY
    && ScaleBase <= e.scale < ScaleBase + ScaleSpan
    && SpeedBase <= e.speed < SpeedBase + SpeedSpan
    && e.kind < models
  }

  /** An enemy as it is between two frames: spawnable, and between the spawn
      plane and the despawn plane. */
  predicate InPlay(e: Enemy, models: nat) {
    Spawnable(e, models) && EnemySpawnZ <= e.z <= EnemyDespawnZ
  }
}
