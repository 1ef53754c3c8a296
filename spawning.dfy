/** When an enemy is spawned and what it looks like: spawnEnemy
    (script.js:167-185) and the spawn gate at the start of each frame
    (script.js:199-204). Every Math.random() result is a parameter. */
module Spawning {
  import opened Config
  import opened Entities

  /** `Math.floor(r * models)`: the enemy model to clone. */
  function ModelIndex(r: real, models: nat): (k: nat)
    requires IsDraw(r) && models > 0
    ensures k < models
    ensures k as real <= r * models as real < k as real + 1.0
  {
    var p := r * models as real;
    assert p < models as real;
    p.Floor
  }

  /** The enemy spawnEnemy creates when `models` enemy models are loaded.
      Its position is (x, y, EnemySpawnZ), and the fields are filled in
      the order the source draws them. */
  function NewEnemy(models: nat, d: SpawnDraws): (e: Enemy)
    requires models > 0 && ValidDraws(d)
    ensures e.z == EnemySpawnZ
    ensures InPlay(e, models)
  {
    var kind := ModelIndex(d.kind, models);
    var scale := d.scale * ScaleSpan + ScaleBase;
    var x := (d.x - SpawnXDrawOffset) * SpawnXSpan;
    var y := d.y * (PlayerMaxY - PlayerMinY) + PlayerMinY;
    var speed := d.speed * SpeedSpan + SpeedBase;
    Enemy(x, y, EnemySpawnZ, scale, speed, kind)
  }

  /** What spawnEnemy appends to the active enemies: nothing when no enemy
      model is loaded (the early return), otherwise one new enemy. */
  function Spawn(models: nat, d: SpawnDraws): (added: seq<Enemy>)
    requires ValidDraws(d)
    ensures |added| <= 1
    ensures added == [] <==> models == 0
    ensures forall e <- added :: e.z == EnemySpawnZ && InPlay(e, models)
  {
    if models == 0 then [] else [NewEnemy(models, d)]
  }

  /** The spawn gate, evaluated after the frame's delta has been added to
      the timer: fewer than MaxEnemies active, and the timer strictly past
      the interval. */
  predicate SpawnDue(count: nat, timer: real, interval: real) {
    count < MaxEnemies && timer > interval
  }

  /** The redrawn spawn interval `Math.random() * 1.5 + 0.5`. */
  function NextInterval(r: real): (i: real)
    requires IsDraw(r)
    ensures IntervalBase <= i < IntervalBase + IntervalSpan
  {
    r * IntervalSpan + IntervalBase
  }

  /** The spawn timer after one frame of `delta` seconds. */
  function TimerAfter(count: nat, timer: real, interval: real, delta: real): real {
    if SpawnDue(count, timer + delta, interval) then 0.0 else timer + delta
  }

  /** The spawn interval after one frame, with r the draw used on a spawn. */
  function IntervalAfter(count: nat, timer: real, interval: real, delta: real, r: real): real
    requires IsDraw(r)
  {
    if SpawnDue(count, timer + delta, interval) then NextInterval(r) else interval
  }

  /** Every model index is reachable: the draws in [k/models, (k+1)/models)
      pick model k. */
  lemma ModelIndexUniform(r: real, models: nat, k: nat)
    requires models > 0 && k < models
    requires k as real / models as real <= r < (k + 1) as real / models as real
    ensures IsDraw(r) && ModelIndex(r, models) == k
  {
    var m := models as real;
    var lo := k as real / m;
    var hi := (k + 1) as real / m;
    assert (k + 1) as real == k as real + 1.0;
    DivTimes(k as real, m);
    DivTimes((k + 1) as real, m);
    TimesMonotone(lo, r, m);
    TimesStrictMonotone(r, hi, m);
    assert hi <= 1.0 by {
      DivTimes(1.0, m);
      TimesMonotone(hi, 1.0, m);
    }
    FloorIs(r * m, k);
  }

  lemma FloorIs(p: real, k: int)
    requires k as real <= p < k as real + 1.0
    ensures p.Floor == k
  {
  }

  lemma DivTimes(a: real, m: real)
    requires m > 0.0
    ensures (a / m) * m == a
  {
  }

  lemma TimesMonotone(a: real, b: real, m: real)
    requires a <= b && m > 0.0
    ensures a * m <= b * m
  {
  }

  lemma TimesStrictMonotone(a: real, b: real, m: real)
    requires a < b && m > 0.0
    ensures a * m < b * m
  {
  }

  /** Whenever the gate opens, the timer restarts at 0 and the interval is
      redrawn into [0.5, 2.0); otherwise the timer has grown by exactly
      delta and the interval is kept. This holds whether or not a model is
      loaded, i.e. also when spawnEnemy returns without adding anything. */
  lemma TimerResetsOnSpawn(count: nat, timer: real, interval: real, delta: real, r: real)
    requires IsDraw(r)
    ensures SpawnDue(count, timer + delta, interval) ==>
              TimerAfter(count, timer, interval, delta) == 0.0
              && IntervalBase <= IntervalAfter(count, timer, interval, delta, r) < IntervalBase + IntervalSpan
    ensures !SpawnDue(count, timer + delta, interval) ==>
              TimerAfter(count, timer, interval, delta) == timer + delta
              && IntervalAfter(count, timer, interval, delta, r) == interval
  {
  }

  /** The timer never goes negative when frames have non-negative length. */
  lemma TimerStaysNonNegative(count: nat, timer: real, interval: real, delta: real)
    requires timer >= 0.0 && delta >= 0.0
    ensures TimerAfter(count, timer, interval, delta) >= 0.0
  {
  }

  /** At the cap no enemy is spawned, however long the timer has run. */
  lemma NoSpawnAtCap(count: nat, timer: real, interval: real, delta: real)
    requires count >= MaxEnemies
    ensures !SpawnDue(count, timer + delta, interval)
    ensures TimerAfter(count, timer, interval, delta) == timer + delta
  {
  }

  /** Starting from timer 0 with interval 1.0 and fewer than MaxEnemies
      enemies, frames of 0.4 s open the gate on the third frame and not
      before, and the timer is 0 right after it. */
  lemma ThirdFrameSpawns(count: nat)
    requires count < MaxEnemies
    ensures !SpawnDue(count, 0.0 + 0.4, 1.0)
    ensures !SpawnDue(count, TimerAfter(count, 0.0, 1.0, 0.4) + 0.4, 1.0)
    ensures SpawnDue(count, TimerAfter(count, TimerAfter(count, 0.0, 1.0, 0.4), 1.0, 0.4) + 0.4, 1.0)
    ensures TimerAfter(count, TimerAfter(count, TimerAfter(count, 0.0, 1.0, 0.4), 1.0, 0.4), 1.0, 0.4) == 0.0
  {
  }
}
