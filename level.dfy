/**
 * A level: the player, the enemies on the field, the butters in flight, the
 * wave counter and the spawn schedule.
 */
module Levels {
  import opened Vectors
  import opened Collision
  import opened Actors

  const U32_MAX: nat := 4294967295

  // ---------------------------------------------------------------------------
  // Numeric conversions of the wave formulas
  // ---------------------------------------------------------------------------

  /** Rust's `f32 as u32`: truncates towards zero and saturates at both ends. */
  function CastU32(x: real): (r: nat)
    ensures r <= U32_MAX
    ensures x <= 0.0 ==> r == 0
    ensures x >= U32_MAX as real ==> r == U32_MAX
    ensures 0.0 <= x < U32_MAX as real ==> r as real <= x < r as real + 1.0
  {
    if x <= 0.0 then 0 else if x >= U32_MAX as real then U32_MAX else x.Floor
  }

  /** `f32::round`: the nearest integer, halves rounded away from zero. */
  function Round(x: real): (r: int)
    ensures x - 0.5 <= r as real <= x + 0.5
    ensures x >= 0.0 ==> r >= 0 && x - 0.5 < r as real
    ensures x < 0.0 ==> r <= 0 && r as real < x + 0.5
  {
    if x >= 0.0 then (x + 0.5).Floor else -((-x + 0.5).Floor)
  }

  lemma RoundMonotone(x: real, y: real)
    requires 0.0 <= x <= y
    ensures Round(x) <= Round(y)
  {
    var fx := (x + 0.5).Floor;
    var fy := (y + 0.5).Floor;
    assert fx as real <= x + 0.5 <= y + 0.5 < fy as real + 1.0;
  }

  lemma CastU32Monotone(x: real, y: real)
    requires x <= y
    ensures CastU32(x) <= CastU32(y)
  {
    if 0.0 < x && y < U32_MAX as real {
      assert x.Floor as real <= x <= y < y.Floor as real + 1.0;
    }
  }

  // ---------------------------------------------------------------------------
  // Wave formulas
  // ---------------------------------------------------------------------------

  /** `f32::powf`, which this model takes as a parameter. */
  type Pow = (real, real) -> real

  ghost predicate MonotoneIn(pow: Pow, e: real) {
    forall a, b | 0.0 <= a <= b :: pow(a, e) <= pow(b, e)
  }

  /**
   * How many enemies wave `wave` sends: through wave 11 a multiple of five
   * (the rounded power of the level) plus four, later a steeper power plus
   * four. Every wave sends at least four.
   */
  function EnemiesToSpawn(pow: Pow, wave: nat): (r: nat)
    requires wave >= 1
    ensures r >= 4
    ensures wave <= 11 ==> (r - 4) % 5 == 0
  {
    var level := (wave - 1) as real;
    if level <= 10.0 then
      CastU32(Round(pow(level, 1.1)) as real) * 5 + 4
    else
      CastU32(pow(level, 1.8)) + 4
  }

  /** The first wave sends exactly four enemies. */
  lemma FirstWaveSendsFour(pow: Pow)
    requires pow(0.0, 1.1) == 0.0
    ensures EnemiesToSpawn(pow, 1) == 4
  {
    assert Round(0.0) == 0;
  }

  /** With a power function that grows in its base, later waves never send fewer enemies, within each branch of the formula. */
  lemma EnemiesToSpawnMonotone(pow: Pow, w1: nat, w2: nat)
    requires 1 <= w1 <= w2
    requires w2 <= 11 || 12 <= w1
    requires MonotoneIn(pow, 1.1) && MonotoneIn(pow, 1.8)
    ensures EnemiesToSpawn(pow, w1) <= EnemiesToSpawn(pow, w2)
  {
    var l1 := (w1 - 1) as real;
    var l2 := (w2 - 1) as real;
    if w2 <= 11 {
      assert pow(l1, 1.1) <= pow(l2, 1.1);
      var p1 := pow(l1, 1.1);
      var p2 := pow(l2, 1.1);
      if p1 >= 0.0 {
        RoundMonotone(p1, p2);
      } else {
        assert Round(p1) <= 0;
        assert CastU32(Round(p1) as real) == 0;
      }
      CastU32Monotone(Round(p1) as real, Round(p2) as real);
    } else {
      assert pow(l1, 1.8) <= pow(l2, 1.8);
      CastU32Monotone(pow(l1, 1.8), pow(l2, 1.8));
    }
  }

  /** Seconds between spawns in wave `wave`: 10 in the first wave, 1.66 less each wave, never below 0.3. */
  function SpawnTimer(wave: nat): (r: real)
    requires wave >= 1
    ensures 0.3 <= r <= 10.0
    ensures wave == 1 ==> r == 10.0
  {
    var w := (wave - 1) as real;
    Max(10.0 - 1.66 * w, 0.3)
  }

  lemma {:induction false} SpawnTimerNonIncreasing(w1: nat, w2: nat)
    requires 1 <= w1 <= w2
    ensures SpawnTimer(w2) <= SpawnTimer(w1)
  {
    var a := (w1 - 1) as real;
    var b := (w2 - 1) as real;
    assert 1.66 * a <= 1.66 * b;
  }

  /** From the seventh wave on, the spawn interval sits at its floor of 0.3 seconds; in the sixth it is still above it. */
  lemma SpawnTimerFloor(wave: nat)
    requires wave >= 1
    ensures wave >= 7 ==> SpawnTimer(wave) == 0.3
    ensures wave <= 6 ==> SpawnTimer(wave) > 0.3
  {
    var w := (wave - 1) as real;
    if wave >= 7 {
      assert w >= 6.0;
      assert 1.66 * w >= 9.96;
    } else {
      assert w <= 5.0;
      assert 1.66 * w <= 8.3;
    }
  }

  // ---------------------------------------------------------------------------
  // Spawn positions
  // ---------------------------------------------------------------------------

  /** The side an enemy enters from: 0 left, 1 right, 2 top, 3 bottom. */
  type Side = s: nat | s < 4

  /** A position along the chosen side, drawn from [0, 800). */
  type Offset = r: real | 0.0 <= r < 800.0

  /** The random draw behind one spawn. */
  datatype SpawnDraw = SpawnDraw(side: Side, offset: Offset)

  const ENEMY_SIZE: real := 50.0

  /**
   * Where an enemy enters: just outside the arena on the drawn side, at the
   * drawn offset along it. Its rectangle shares no interior point with the
   * arena and lies within one enemy width of it.
   */
  function SpawnPosition(side: Side, offset: Offset): (p: Vec2)
    ensures p.x + ENEMY_SIZE <= 0.0 || p.x >= ARENA || p.y + ENEMY_SIZE <= 0.0 || p.y >= ARENA
    ensures -ENEMY_SIZE <= p.x <= ARENA + ENEMY_SIZE && -ENEMY_SIZE <= p.y <= ARENA + ENEMY_SIZE
    ensures side < 2 ==> 0.0 <= p.y < ARENA && (p.x < 0.0 <==> side == 0)
    ensures side >= 2 ==> 0.0 <= p.x < ARENA && (p.y < 0.0 <==> side == 2)
    ensures side < 2 ==> p.y == offset && p.x == (if side == 0 then -ENEMY_SIZE else ARENA + ENEMY_SIZE)
    ensures side >= 2 ==> p.x == offset && p.y == (if side == 2 then -ENEMY_SIZE else ARENA + ENEMY_SIZE)
  {
    if side == 0 then Vec2(-50.0, offset)
    else if side == 1 then Vec2(850.0, offset)
    else if side == 2 then Vec2(offset, -50.0)
    else Vec2(offset, 850.0)
  }

  // ---------------------------------------------------------------------------
  // The `retain` filters
  // ---------------------------------------------------------------------------

  /** A butter survives the tick if it is unspent and strictly inside the arena. */
  predicate Live(b: Butter)
    reads b
  {
    b.valid && 0.0 < b.pos.x < ARENA && 0.0 < b.pos.y < ARENA
  }

  /**
   * The butters kept are unspent ones in the arena, and of the unspent
   * butters in the arena only those on its boundary are dropped.
   */
  lemma LiveInArena(b: Butter)
    ensures Live(b) ==> b.valid && PointInRect(Vec2(ARENA, ARENA), Vec2(0.0, 0.0), b.pos)
    ensures b.valid && PointInRect(Vec2(ARENA, ARENA), Vec2(0.0, 0.0), b.pos) ==>
      (Live(b) <==> b.pos.x !in {0.0, ARENA} && b.pos.y !in {0.0, ARENA})
  {
  }

  /** `butters.retain(..)`: the live butters, in their order. */
  function LiveButters(s: seq<Butter>): (r: seq<Butter>)
    reads set b | b in s
    ensures |r| <= |s|
    ensures forall b | b in r :: b in s && Live(b)
    ensures forall b | b in s && Live(b) :: b in r
    decreases |s|
  {
    if s == [] then []
    else (if Live(s[0]) then [s[0]] else []) + LiveButters(s[1..])
  }

  /** Retaining works element by element: filtering a concatenation concatenates the filtered parts, so order is kept. */
  lemma {:induction false} LiveButtersConcat(a: seq<Butter>, b: seq<Butter>)
    ensures LiveButters(a + b) == LiveButters(a) + LiveButters(b)
    decreases |a|
  {
    if a == [] {
      assert a + b == b;
    } else {
      assert (a + b)[0] == a[0];
      assert (a + b)[1..] == a[1..] + b;
      LiveButtersConcat(a[1..], b);
    }
  }

  /** Retaining twice retains nothing more. */
  lemma {:induction false} LiveButtersIdempotent(s: seq<Butter>)
    ensures LiveButters(LiveButters(s)) == LiveButters(s)
    decreases |s|
  {
    if s != [] {
      LiveButtersIdempotent(s[1..]);
      if Live(s[0]) {
        var t := LiveButters(s[1..]);
        assert ([s[0]] + t)[0] == s[0];
        assert ([s[0]] + t)[1..] == t;
      } else {
        assert [] + LiveButters(s[1..]) == LiveButters(s[1..]);
      }
    }
  }

  /** No butter is listed twice: the `Vec` owns each of its butters. */
  predicate Distinct(s: seq<Butter>)
    decreases |s|
  {
    s == [] || (s[0] !in s[1..] && Distinct(s[1..]))
  }

  /** Distinct butters sit at distinct indices. */
  lemma {:induction false} DistinctIndices(s: seq<Butter>, i: nat, j: nat)
    requires Distinct(s) && i < j < |s|
    ensures s[i] != s[j]
    decreases |s|
  {
    if i == 0 {
      assert s[j] == s[1..][j - 1];
    } else {
      DistinctIndices(s[1..], i - 1, j - 1);
    }
  }

  /** Appending a butter that is not listed yet keeps the butters distinct. */
  lemma {:induction false} DistinctAppend(s: seq<Butter>, x: Butter)
    requires Distinct(s) && x !in s
    ensures Distinct(s + [x])
    decreases |s|
  {
    if s == [] {
      assert [] + [x] == [x];
      assert [x][1..] == [];
    } else {
      assert (s + [x])[1..] == s[1..] + [x];
      DistinctAppend(s[1..], x);
    }
  }

  /** Retaining keeps the butters distinct. */
  lemma {:induction false} LiveButtersDistinct(s: seq<Butter>)
    requires Distinct(s)
    ensures Distinct(LiveButters(s))
    decreases |s|
  {
    if s != [] {
      var t := LiveButters(s[1..]);
      LiveButtersDistinct(s[1..]);
      if Live(s[0]) {
        assert s[0] !in t;
        assert ([s[0]] + t)[1..] == t;
      } else {
        assert [] + t == t;
      }
    }
  }

  /** How many butters of `s` are hostile and overlap the player's rectangle. */
  function TouchCount(s: seq<Butter>, player: Player): (n: nat)
    reads (set b | b in s), player`pos
    ensures n <= |s|
    decreases |s|
  {
    if s == [] then 0
    else TouchCount(s[..|s| - 1], player) + (if s[|s| - 1].Touches(player) then 1 else 0)
  }

  /** `enemies.retain(|e| e.is_valid())`: the enemies still in play, in their order. */
  function ValidEnemies(s: seq<Enemy>): (r: seq<Enemy>)
    reads set e | e in s
    ensures |r| <= |s|
    ensures forall e | e in r :: e in s && e.valid
    ensures forall e | e in s && e.valid :: e in r
    decreases |s|
  {
    if s == [] then []
    else (if s[0].valid then [s[0]] else []) + ValidEnemies(s[1..])
  }

  /** The number of enemies in `s` no longer in play. */
  function Defeated(s: seq<Enemy>): nat
    reads set e | e in s
    decreases |s|
  {
    if s == [] then 0
    else (if s[0].valid then 0 else 1) + Defeated(s[1..])
  }

  /** What `retain` drops is exactly what the kill counter adds: the length lost equals the number of defeated enemies. */
  lemma {:induction false} RetainCountsKills(s: seq<Enemy>)
    ensures |ValidEnemies(s)| + Defeated(s) == |s|
    decreases |s|
  {
    if s != [] {
      RetainCountsKills(s[1..]);
    }
  }

  // ---------------------------------------------------------------------------
  // Level
  // ---------------------------------------------------------------------------

  class Level {
    const player: Player
    const pow: Pow
    var enemies: seq<Enemy>
    var butters: seq<Butter>
    var waveNumber: nat
    var enemiesSpawned: nat
    var spawnTimer: real
    var totalKills: nat
    /** Enemies spawned since the level was created or restarted. */
    ghost var totalSpawned: nat

    ghost predicate Valid()
      reads this`waveNumber, this`enemiesSpawned, this`enemies, this`butters, this`totalKills, this`totalSpawned
      reads player, player.Anims()
    {
      && player.Valid()
      && Distinct(butters)
      && waveNumber >= 1
      && enemiesSpawned <= EnemiesToSpawn(pow, waveNumber)
      && |enemies| <= waveNumber + 2
      && totalKills + |enemies| <= totalSpawned
    }

    /** `Level::new`: a fresh player in the middle of the arena, wave 1, nothing spawned yet. */
    constructor (pow: Pow)
      ensures Valid() && fresh(player) && fresh(player.Anims())
      ensures this.pow == pow && enemies == [] && butters == []
      ensures waveNumber == 1 && enemiesSpawned == 0 && spawnTimer == 0.0 && totalKills == 0
      ensures player.pos == Vec2(400.0, 400.0) && player.hp == 3 && player.maxHp == 3
    {
      player := new Player(Vec2(400.0, 400.0));
      this.pow := pow;
      enemies := [];
      butters := [];
      waveNumber := 1;
      enemiesSpawned := 0;
      spawnTimer := 0.0;
      totalKills := 0;
      totalSpawned := 0;
    }

    function PlayerDead(): (r: bool)
      reads this, player
      ensures r <==> player.hp == 0
    {
      player.IsDead()
    }

    /** The wave has sent all its enemies, at least four, and none is left on the field. */
    function IsWaveOver(): (r: bool)
      reads this
      requires waveNumber >= 1
      ensures r ==> |enemies| == 0 && enemiesSpawned >= 4
    {
      enemiesSpawned == EnemiesToSpawn(pow, waveNumber) && |enemies| == 0
    }

    /** The three conditions under which the next tick of `dt` seconds spawns an enemy. */
    function CanSpawn(dt: real): (r: bool)
      reads this
      requires waveNumber >= 1
      ensures r ==> !IsWaveOver() && enemiesSpawned + 1 <= EnemiesToSpawn(pow, waveNumber)
    {
      && enemiesSpawned < EnemiesToSpawn(pow, waveNumber)
      && spawnTimer - dt < 0.0
      && |enemies| < waveNumber + 2
    }

    function GetWave(): (w: nat)
      reads this, player, player.Anims()
      requires Valid()
      ensures w >= 1
    {
      waveNumber
    }

    /** The kill counter never exceeds the enemies spawned since the last restart, less those still on the field. */
    function GetKills(): (k: nat)
      reads this, player, player.Anims()
      requires Valid()
      ensures k + |enemies| <= totalSpawned
    {
      totalKills
    }

    /**
     * Counts the spawn timer down by `dt` and, when the wave still has
     * enemies to send, the timer has run out and the field has room, adds
     * one enemy at the drawn spawn position and restarts the timer.
     */
    method SpawnEnemy(dt: real, draw: SpawnDraw, now: real)
      requires Valid()
      modifies this
      ensures Valid()
      ensures waveNumber == old(waveNumber) && totalKills == old(totalKills) && butters == old(butters)
      ensures old(CanSpawn(dt)) ==>
        && enemiesSpawned == old(enemiesSpawned) + 1
        && spawnTimer == SpawnTimer(waveNumber)
        && |enemies| == |old(enemies)| + 1 && enemies[..|old(enemies)|] == old(enemies)
        && fresh(Last(enemies)) && Last(enemies).valid
        && Last(enemies).pos == SpawnPosition(draw.side, draw.offset) && Last(enemies).shotCooldown == now
      ensures !old(CanSpawn(dt)) ==>
        enemiesSpawned == old(enemiesSpawned) && spawnTimer == old(spawnTimer) - dt && enemies == old(enemies)
      ensures forall e | e in enemies :: e in old(enemies) || fresh(e)
    {
      spawnTimer := spawnTimer - dt;

      if enemiesSpawned < EnemiesToSpawn(pow, waveNumber) && spawnTimer < 0.0 && |enemies| < waveNumber + 2 {
        var e := new Enemy(SpawnPosition(draw.side, draw.offset), now);
        enemies := enemies + [e];
        spawnTimer := SpawnTimer(waveNumber);
        enemiesSpawned := enemiesSpawned + 1;
        totalSpawned := totalSpawned + 1;
      }
    }

    /**
     * Starts wave `wave`: heals the player when the wave number goes up,
     * resets the spawn count and timer, and spawns the wave's first enemy
     * at once if the field has room.
     */
    method SetWave(wave: nat, draw: SpawnDraw, now: real)
      requires Valid() && wave >= 1 && |enemies| <= wave + 2
      modifies this, player`hp, player`maxHp
      ensures Valid()
      ensures waveNumber == wave && totalKills == old(totalKills) && butters == old(butters)
      ensures wave > old(waveNumber) ==> (player.hp, player.maxHp) == EndWaveStats(old(player.hp), old(player.maxHp))
      ensures wave <= old(waveNumber) ==> player.hp == old(player.hp) && player.maxHp == old(player.maxHp)
      ensures |old(enemies)| < wave + 2 ==>
        && enemiesSpawned == 1 && spawnTimer == SpawnTimer(wave)
        && |enemies| == |old(enemies)| + 1 && enemies[..|old(enemies)|] == old(enemies)
        && fresh(Last(enemies)) && Last(enemies).valid
        && Last(enemies).pos == SpawnPosition(draw.side, draw.offset) && Last(enemies).shotCooldown == now
      ensures |old(enemies)| == wave + 2 ==> enemiesSpawned == 0 && spawnTimer == -1.0 && enemies == old(enemies)
    {
      if wave > waveNumber {
        player.EndWave();
      }

      waveNumber := wave;
      enemiesSpawned := 0;
      spawnTimer := -1.0;
      SpawnEnemy(0.0, draw, now);
    }

    /** The end of `update`: an emptied wave is followed at once by the next one. */
    method AdvanceWave(draw: SpawnDraw, now: real)
      requires Valid()
      modifies this, player`hp, player`maxHp
      ensures Valid() && !IsWaveOver()
      ensures butters == old(butters) && totalKills == old(totalKills)
      ensures forall e | e in enemies :: e in old(enemies) || (fresh(e) && e.valid)
      ensures old(IsWaveOver()) ==>
        && waveNumber == old(waveNumber) + 1
        && (player.hp, player.maxHp) == EndWaveStats(old(player.hp), old(player.maxHp))
        && enemiesSpawned == 1 && spawnTimer == SpawnTimer(waveNumber)
        && |enemies| == 1 && fresh(enemies[0]) && enemies[0].valid
        && enemies[0].pos == SpawnPosition(draw.side, draw.offset) && enemies[0].shotCooldown == now
      ensures !old(IsWaveOver()) ==>
        && waveNumber == old(waveNumber) && enemies == old(enemies)
        && enemiesSpawned == old(enemiesSpawned) && spawnTimer == old(spawnTimer)
        && player.hp == old(player.hp) && player.maxHp == old(player.maxHp)
    {
      if IsWaveOver() {
        SetWave(waveNumber + 1, draw, now);
      }
    }

    /** The two `retain` calls of `update`, with the removed enemies added to the kill counter. */
    method Prune()
      requires Valid()
      modifies this`butters, this`enemies, this`totalKills
      ensures Valid()
      ensures butters == LiveButters(old(butters))
      ensures enemies == ValidEnemies(old(enemies))
      ensures totalKills == old(totalKills) + Defeated(old(enemies))
    {
      PruneButters();
      PruneEnemies();
    }

    /** `butters.retain(..)`: the butters still in play, in their order. */
    method PruneButters()
      requires Valid()
      modifies this`butters
      ensures Valid()
      ensures butters == LiveButters(old(butters))
      ensures forall b | b in butters :: b in old(butters) && Live(b)
    {
      LiveButtersDistinct(butters);
      butters := LiveButters(butters);
    }

    /** `enemies.retain(..)`, counting each enemy removed as a kill. */
    method PruneEnemies()
      requires Valid()
      modifies this`enemies, this`totalKills
      ensures Valid()
      ensures enemies == ValidEnemies(old(enemies))
      ensures totalKills == old(totalKills) + Defeated(old(enemies))
    {
      var lenBefore := |enemies|;
      enemies := ValidEnemies(enemies);
      var lenAfter := |enemies|;

      RetainCountsKills(old(enemies));
      assert lenBefore - lenAfter == Defeated(old(enemies));
      totalKills := totalKills + (lenBefore - lenAfter);
      assert totalKills + |enemies| == old(totalKills) + |old(enemies)|;
    }

    /**
     * Every enemy takes its turn, firing at the player when its cooldown has
     * run out. New butters are appended after the ones already in flight.
     */
    method UpdateEnemies(dt: real, now: real, steer: Steering)
      requires Valid()
      modifies this`butters, set e | e in enemies
      ensures Valid()
      ensures old(butters) <= butters
      ensures forall b | b in butters[|old(butters)|..] :: fresh(b) && b.valid && !b.reflected
      ensures forall b | b in butters :: b in old(butters) || fresh(b)
      ensures forall e | e in enemies :: e.pos == old(e.pos) && e.valid == old(e.valid)
      ensures |butters| <= |old(butters)| + |enemies|
    {
      FireAll(dt, now, steer);
    }

    /** The loop of `UpdateEnemies`, one enemy at a time in list order. */
    method FireAll(dt: real, now: real, steer: Steering)
      requires Distinct(butters)
      modifies this`butters, set e | e in enemies
      ensures Distinct(butters)
      ensures old(butters) <= butters
      ensures forall b | b in butters[|old(butters)|..] :: fresh(b) && b.valid && !b.reflected
      ensures forall b | b in butters :: b in old(butters) || fresh(b)
      ensures forall e | e in enemies :: e.pos == old(e.pos) && e.valid == old(e.valid)
      ensures |butters| <= |old(butters)| + |enemies|
    {
      ghost var fired: seq<Butter> := [];
      var i := 0;
      while i < |enemies|
        invariant 0 <= i <= |enemies|
        invariant butters == old(butters) + fired && |fired| <= i
        invariant forall b | b in fired :: fresh(b) && b.valid && !b.reflected
        invariant forall e | e in enemies :: e.pos == old(e.pos) && e.valid == old(e.valid)
        invariant Distinct(butters)
      {
        ghost var shot := EnemyTurn(i, dt, now, steer);
        fired := fired + shot;
        i := i + 1;
      }
      assert butters[|old(butters)|..] == fired;
    }

    /** One enemy's turn: it may append one new butter aimed at the player; nothing else changes. */
    method EnemyTurn(i: nat, dt: real, now: real, steer: Steering) returns (ghost shot: seq<Butter>)
      requires i < |enemies| && Distinct(butters)
      modifies this`butters, enemies[i]
      ensures Distinct(butters)
      ensures enemies[i].pos == old(enemies[i].pos) && enemies[i].valid == old(enemies[i].valid)
      ensures butters == old(butters) + shot && |shot| <= 1
      ensures forall b | b in shot :: fresh(b) && b.valid && !b.reflected
    {
      var before := butters;
      butters := enemies[i].Update(dt, now, player, butters, steer);
      shot := butters[|before|..];
      if |butters| > |before| {
        assert butters == before + [butters[|before|]];
        DistinctAppend(before, butters[|before|]);
      }
    }

    /** The enemies in `defeated` leave play; no other enemy changes. */
    method Defeat(defeated: set<Enemy>)
      modifies set e | e in enemies
      ensures forall e | e in enemies :: e.pos == old(e.pos)
      ensures forall e | e in enemies :: if e in defeated then !e.valid else e.valid == old(e.valid)
    {
      var i := 0;
      while i < |enemies|
        invariant 0 <= i <= |enemies|
        invariant forall e | e in enemies :: e.pos == old(e.pos)
        invariant forall e | e in enemies ::
          if e in enemies[..i] && e in defeated then !e.valid else e.valid == old(e.valid)
      {
        if enemies[i] in defeated {
          enemies[i].valid := false;
        }
        assert enemies[..i + 1] == enemies[..i] + [enemies[i]];
        i := i + 1;
      }
      assert enemies[..i] == enemies;
    }

    /** Every butter in flight moves one tick; hostile ones that touch the player hurt it and are spent. */
    method UpdateButters(dt: real)
      requires Valid()
      modifies (set b | b in butters), player`hp
      ensures Valid()
      ensures player.hp == HitHpTimes(old(player.hp), TouchCount(butters, player))
      ensures forall i | 0 <= i < |butters| :: butters[i].Turned(dt, player)
      ensures forall b | b in butters :: b.Turned(dt, player)
    {
      MoveButters(dt);
      assert player.hp <= old(player.hp);
    }

    /** The loop of `UpdateButters`, one butter at a time in list order. */
    method MoveButters(dt: real)
      requires Distinct(butters)
      modifies (set b | b in butters), player`hp
      ensures player.hp == HitHpTimes(old(player.hp), TouchCount(butters, player))
      ensures forall i | 0 <= i < |butters| :: butters[i].Turned(dt, player)
    {
      var j := 0;
      while j < |butters|
        invariant 0 <= j <= |butters|
        invariant player.hp == HitHpTimes(old(player.hp), TouchCount(butters[..j], player))
        invariant forall i | 0 <= i < j :: butters[i].Turned(dt, player)
        invariant forall i | j <= i < |butters| :: unchanged(butters[i])
      {
        StepButter(j, dt, old(player.hp));
        j := j + 1;
      }
      assert butters[..j] == butters;
    }

    /** One butter's turn: it moves and, if it hits the player, is spent and costs a hit point; no other butter changes. */
    method StepButter(j: nat, dt: real, ghost hp0: u8)
      requires Distinct(butters) && j < |butters|
      requires player.hp == HitHpTimes(hp0, TouchCount(butters[..j], player))
      modifies butters[j], player`hp
      ensures butters[j].Turned(dt, player)
      ensures player.hp == HitHpTimes(hp0, TouchCount(butters[..j + 1], player))
      ensures forall i | 0 <= i < |butters| && i != j :: unchanged(butters[i])
    {
      var b := butters[j];
      forall i | 0 <= i < |butters| && i != j
        ensures butters[i] != b
      {
        if i < j {
          DistinctIndices(butters, i, j);
        } else {
          DistinctIndices(butters, j, i);
        }
      }
      assert b !in butters[..j];
      b.Update(dt, player);
      assert butters[..j + 1][..j] == butters[..j];
    }

    /**
     * The middle of `update`: the player, then every enemy, then every
     * butter takes its turn. Each butter in flight meets the parry, then
     * flies at its (possibly new) velocity; each butter fired this tick is
     * appended, hostile; every butter that ends the tick hostile on the
     * player has cost it a hit point and is spent.
     */
    method Play(input: Input, dt: real, now: real, angle: real, steer: Steering, defeated: set<Enemy>)
      requires Valid()
      modifies this`butters, player, player.Anims(), (set b | b in butters), (set e | e in enemies)
      ensures Valid()
      ensures player.hp == HitHpTimes(old(player.hp), TouchCount(butters, player))
      ensures player.maxHp == old(player.maxHp)
      ensures old(butters) <= butters && |butters| <= |old(butters)| + |enemies|
      ensures
        var fires := !old(player.IsDead()) &&
          ParryFires(old(player.chargeTimer), old(player.attackAnimations[player.currentAttackAnimation].IsDone()),
                     input.mouseDown, input.mouseReleased, now);
        forall b | b in old(butters) ::
          b.Parried(fires, player.weaponPos, player.weaponSize, input.mouse, steer) && b.Flew(dt, player)
      ensures forall i | |old(butters)| <= i < |butters| ::
        fresh(butters[i]) && !butters[i].reflected && butters[i].valid == !butters[i].Touches(player)
      ensures forall e | e in enemies :: e.pos == old(e.pos) && e.valid == (old(e.valid) && e !in defeated)
    {
      PlayerTurn(input, dt, now, angle, steer);
      label parried:
      EnemiesAndButters(dt, now, steer, defeated);
      var fires := !old(player.IsDead()) &&
        ParryFires(old(player.chargeTimer), old(player.attackAnimations[player.currentAttackAnimation].IsDone()),
                   input.mouseDown, input.mouseReleased, now);
      forall b | b in old(butters)
        ensures b.Parried(fires, player.weaponPos, player.weaponSize, input.mouse, steer) && b.Flew(dt, player)
      {
        assert b.Parried@parried(fires, player.weaponPos, player.weaponSize, input.mouse, steer);
        assert b.Turned@parried(dt, player);
        assert old@parried(b.pos) == old(b.pos) && old@parried(b.valid) == old(b.valid);
        assert player.pos == old@parried(player.pos);
        assert b.Touches(player) == old@parried(b.HitsPlayer(dt, player));
      }
    }

    /** The player's tick within a level: only the parry reaches the butters, and the level's own fields stay as they are. */
    method PlayerTurn(input: Input, dt: real, now: real, angle: real, steer: Steering)
      requires Valid()
      modifies player, player.Anims(), (set b | b in butters)
      ensures Valid()
      ensures player.hp == old(player.hp) && player.maxHp == old(player.maxHp)
      ensures forall b | b in butters :: b.pos == old(b.pos) && b.valid == old(b.valid)
      ensures
        var fires := !old(player.IsDead()) &&
          ParryFires(old(player.chargeTimer), old(player.attackAnimations[player.currentAttackAnimation].IsDone()),
                     input.mouseDown, input.mouseReleased, now);
        forall b | b in butters :: b.Parried(fires, player.weaponPos, player.weaponSize, input.mouse, steer)
    {
      player.Update(input, dt, now, angle, steer, butters);
    }

    /** Lines 64-66 of `update`: every enemy, then every butter takes its turn. */
    method EnemiesAndButters(dt: real, now: real, steer: Steering, defeated: set<Enemy>)
      requires Valid()
      modifies this`butters, player`hp, (set b | b in butters), (set e | e in enemies)
      ensures Valid()
      ensures player.hp == HitHpTimes(old(player.hp), TouchCount(butters, player))
      ensures old(butters) <= butters && |butters| <= |old(butters)| + |enemies|
      ensures forall b | b in old(butters) :: b.Turned(dt, player)
      ensures forall i | |old(butters)| <= i < |butters| ::
        fresh(butters[i]) && !butters[i].reflected && butters[i].valid == !butters[i].Touches(player)
      ensures forall e | e in enemies :: e.pos == old(e.pos) && e.valid == (old(e.valid) && e !in defeated)
    {
      EnemyPhase(dt, now, steer, defeated);
      UpdateButters(dt);
    }

    /** Line 64 of `update` and the enemies that leave play: every enemy fires when it may, then the defeated ones lose their validity. */
    method EnemyPhase(dt: real, now: real, steer: Steering, defeated: set<Enemy>)
      requires Valid()
      modifies this`butters, (set e | e in enemies)
      ensures Valid()
      ensures old(butters) <= butters && |butters| <= |old(butters)| + |enemies|
      ensures forall b | b in butters[|old(butters)|..] :: fresh(b) && b.valid && !b.reflected
      ensures forall b | b in butters :: b in old(butters) || fresh(b)
      ensures forall e | e in enemies :: e.pos == old(e.pos) && e.valid == (old(e.valid) && e !in defeated)
    {
      UpdateEnemies(dt, now, steer);
      Defeat(defeated);
    }

    /**
     * One tick of play. `spawnDraw` and `waveDraw` are the random draws of
     * the spawn at the start of the tick and of the next wave's first
     * spawn; `defeated` are the enemies that leave play this tick.
     */
    method Update(input: Input, dt: real, now: real, angle: real, steer: Steering,
                  spawnDraw: SpawnDraw, waveDraw: SpawnDraw, defeated: set<Enemy>)
      requires Valid()
      modifies this, player, player.Anims(), (set b | b in butters), (set e | e in enemies)
      ensures Valid()
      ensures !IsWaveOver()
      ensures waveNumber == old(waveNumber) || waveNumber == old(waveNumber) + 1
      ensures forall b | b in butters :: Live(b)
      ensures forall e | e in enemies :: e.valid
      ensures totalKills >= old(totalKills)
    {
      SpawnEnemy(dt, spawnDraw, now);

      Play(input, dt, now, angle, steer, defeated);

      Settle(waveDraw, now);
    }

    /** Lines 67-82 of `update`: the two retains, then the next wave once this one is over. */
    method Settle(draw: SpawnDraw, now: real)
      requires Valid()
      modifies this, player`hp, player`maxHp
      ensures Valid()
      ensures !IsWaveOver()
      ensures forall b | b in butters :: Live(b)
      ensures forall e | e in enemies :: e.valid
      ensures butters == old(LiveButters(butters))
      ensures totalKills == old(totalKills + Defeated(enemies))
      ensures
        var over := old(enemiesSpawned == EnemiesToSpawn(pow, waveNumber) && |ValidEnemies(enemies)| == 0);
        && waveNumber == old(waveNumber) + (if over then 1 else 0)
        && (over ==>
              && (player.hp, player.maxHp) == EndWaveStats(old(player.hp), old(player.maxHp))
              && enemiesSpawned == 1 && spawnTimer == SpawnTimer(waveNumber)
              && |enemies| == 1 && fresh(enemies[0]) && enemies[0].valid
              && enemies[0].pos == SpawnPosition(draw.side, draw.offset) && enemies[0].shotCooldown == now)
        && (!over ==>
              && enemies == old(ValidEnemies(enemies))
              && enemiesSpawned == old(enemiesSpawned) && spawnTimer == old(spawnTimer)
              && player.hp == old(player.hp) && player.maxHp == old(player.maxHp))
    {
      Prune();
      assert forall e | e in enemies :: e.valid;

      AdvanceWave(draw, now);
    }

    /**
     * One tick while the player is dead: the player, the butters and the
     * enemies still move, but nothing spawns and removed enemies are not
     * counted as kills.
     */
    method DeadUpdate(input: Input, dt: real, now: real, angle: real, steer: Steering, defeated: set<Enemy>)
      requires Valid()
      modifies this, player, player.Anims(), (set b | b in butters), (set e | e in enemies)
      ensures Valid()
      ensures waveNumber == old(waveNumber) && enemiesSpawned == old(enemiesSpawned)
      ensures spawnTimer == old(spawnTimer) && totalKills == old(totalKills)
      ensures forall e | e in enemies :: e in old(enemies) && e.valid
      ensures forall b | b in butters :: b in old(butters) && Live(b)
      ensures butters == LiveButters(old(butters)) && enemies == ValidEnemies(old(enemies))
      ensures player.hp == HitHpTimes(old(player.hp), TouchCount(old(butters), player))
      ensures player.maxHp == old(player.maxHp)
      ensures
        var fires := !old(player.IsDead()) &&
          ParryFires(old(player.chargeTimer), old(player.attackAnimations[player.currentAttackAnimation].IsDone()),
                     input.mouseDown, input.mouseReleased, now);
        forall b | b in old(butters) ::
          b.Parried(fires, player.weaponPos, player.weaponSize, input.mouse, steer) && b.Flew(dt, player)
      ensures forall e | e in old(enemies) :: e.pos == old(e.pos) && e.valid == (old(e.valid) && e !in defeated)
    {
      PlayerTurn(input, dt, now, angle, steer);
      label parried:
      DeadSweep(dt, defeated);
      var fires := !old(player.IsDead()) &&
        ParryFires(old(player.chargeTimer), old(player.attackAnimations[player.currentAttackAnimation].IsDone()),
                   input.mouseDown, input.mouseReleased, now);
      forall b | b in old(butters)
        ensures b.Parried(fires, player.weaponPos, player.weaponSize, input.mouse, steer) && b.Flew(dt, player)
      {
        assert b.Parried@parried(fires, player.weaponPos, player.weaponSize, input.mouse, steer);
        assert b.Turned@parried(dt, player);
        assert old@parried(b.pos) == old(b.pos) && old@parried(b.valid) == old(b.valid);
        assert player.pos == old@parried(player.pos);
        assert b.Touches(player) == old@parried(b.HitsPlayer(dt, player));
      }
    }

    /** Lines 88-92 of `dead_update`: the butters move, then the enemies and butters out of play are dropped uncounted. */
    method DeadSweep(dt: real, defeated: set<Enemy>)
      requires Valid()
      modifies this`butters, this`enemies, player`hp, (set b | b in butters), (set e | e in enemies)
      ensures Valid()
      ensures forall e | e in enemies :: e in old(enemies) && e.valid
      ensures forall b | b in butters :: b in old(butters) && Live(b)
      ensures butters == LiveButters(old(butters)) && enemies == ValidEnemies(old(enemies))
      ensures player.hp == HitHpTimes(old(player.hp), TouchCount(old(butters), player))
      ensures forall b | b in old(butters) :: b.Turned(dt, player)
      ensures forall e | e in old(enemies) :: e.pos == old(e.pos) && e.valid == (old(e.valid) && e !in defeated)
    {
      DeadMove(dt, defeated);
      DropOutOfPlay();
    }

    /** The moves of `dead_update` before its retains: the enemies in `defeated` leave play and every butter takes its turn. */
    method DeadMove(dt: real, defeated: set<Enemy>)
      requires Valid()
      modifies player`hp, (set b | b in butters), (set e | e in enemies)
      ensures Valid()
      ensures player.hp == HitHpTimes(old(player.hp), TouchCount(butters, player))
      ensures forall b | b in butters :: b.Turned(dt, player)
      ensures forall e | e in enemies :: e.pos == old(e.pos) && e.valid == (old(e.valid) && e !in defeated)
    {
      Defeat(defeated);
      UpdateButters(dt);
    }

    /** The two retains of `dead_update`: the enemies out of play are dropped without being counted as kills, then the butters out of play. */
    method DropOutOfPlay()
      requires Valid()
      modifies this`enemies, this`butters
      ensures Valid()
      ensures enemies == ValidEnemies(old(enemies)) && butters == LiveButters(old(butters))
      ensures forall e | e in enemies :: e in old(enemies) && e.valid
      ensures forall b | b in butters :: b in old(butters) && Live(b)
      ensures TouchCount(old(butters), player) == old(TouchCount(butters, player))
    {
      enemies := ValidEnemies(enemies);
      PruneButters();
    }

    /** A new game: no butters, the first enemy of wave 1, no kills, and a player at full health in the middle. */
    method Restart(draw: SpawnDraw, now: real)
      requires Valid()
      modifies this, player`hp, player`maxHp, player`pos
      ensures Valid()
      ensures butters == [] && totalKills == 0
      ensures waveNumber == 1 && enemiesSpawned == 1 && spawnTimer == 10.0
      ensures |enemies| == 1 && fresh(enemies[0]) && enemies[0].valid
      ensures enemies[0].pos == SpawnPosition(draw.side, draw.offset) && enemies[0].shotCooldown == now
      ensures player.hp == 3 && player.maxHp == 3 && player.pos == Vec2(400.0, 400.0)
    {
      butters := [];
      enemies := [];
      totalSpawned := totalKills;
      SetWave(1, draw, now);
      totalKills := 0;
      totalSpawned := 1;
      player.Restart();
    }
  }
}
