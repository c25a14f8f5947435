# Dont-Butter-My-Biscut: the wave and combat simulation in Dafny

This project models the simulation core of a small top-down arcade game. The
player moves around an 800 × 800 arena. Enemies spawn in waves on its edges
and throw butter at the player. The player charges a weapon and parries the
butter back. The game's frame loop calls one `update` per tick, and the model
covers what that tick does:

- `collision.dfy`, module `Collision`: the closed rectangle tests of
  `src/collision.rs`.
- `animation.dfy`, module `Animation`: the frame counter of `src/animation.rs`
  (class `Animation`). It includes `FMod`, Rust's truncating `%` on floats.
- `actors.dfy`, module `Actors`: the player (class `Player`, `src/player.rs`),
  the butter and the enemy (classes `Butter` and `Enemy`, `src/enemy.rs`).
  They share one module because a butter's update damages the player and the
  player's parry retargets butters.
- `level.dfy`, module `Levels`: the wave controller (class `Level`,
  `src/level.rs`), its two wave formulas and the `retain` filters.
- `vectors.dfy`, module `Vectors`: the 2-D vector and the steering helper's
  type.

Positions, sizes and times are `real`. Hit points are a `u8` newtype. The
per-tick state lives in classes whose methods change it in place. Each method
is specified by pure functions of the old state (`NextFrame`, `AttackStep`,
`EndWaveStats`, `LiveButters`, ...), and lemmas state what the game promises
about those functions.

Inputs the engine supplies become parameters:

- the keys, the mouse buttons and the cursor become an `Input` value;
- the cursor's `atan2` angle becomes `angle`;
- the clock becomes `now` (timestamps replace `Instant`);
- the random spawn side and offset become a `SpawnDraw`;
- the steering helper `move_towards` (`src/main.rs:196-209`) becomes a
  function-valued parameter `steer`;
- `f32::powf` becomes the level's `pow` field.

Some facts about the code that the model follows as written:

- A butter that is not reflected damages the player when it touches the
  player's full 50 × 50 rectangle (`src/enemy.rs:72`), not the lower half
  that `get_hit_box` returns (`src/player.rs:223-227`).
  `Player.HitBoxWithinBody` shows the full rectangle is hit at least as often.
- An enemy fires once more than 1.0 s has passed since its last shot
  (`src/enemy.rs:33`).
- A retargeted butter moves at speed 44 (`src/enemy.rs:85`). The charge time
  that `charge_attack` receives (`src/player.rs:207`) is not used by it.
- `end_wave` always heals one hit point. When that takes hp above the cap,
  the cap rises too (`src/player.rs:229-234`): hp and max_hp both go up.
- `restart` ends with one enemy on the field, because `set_wave` spawns at
  once (`src/level.rs:110`, `src/level.rs:158`).
- The comment at `src/player.rs:120` calls rotation 0 "straight up". With
  `atan2` and the screen's y axis pointing down, rotation 0 is the cursor
  straight to the right, and `FacingFollowsCursor` states the facing this
  produces.

`src/enemy.rs` is an older version than its callers. Its `Enemy::new` takes a
second position that it ignores; `Butter::update` and `change_target` take
fewer arguments than `src/level.rs` and `src/player.rs` pass; and `is_valid`,
`walk_off` and `dead_update` are missing. The model follows `src/enemy.rs` as
written. An enemy's validity is an abstract `valid` flag. The enemies that
leave play in a tick are given to `Level.Update` and `Level.DeadUpdate` as a
`defeated` set, and those methods clear the flags.

## Model

| member | source | states |
|---|---|---|
| Collision.PointInRect | src/collision.rs:3-18 | the point is in the rectangle iff it lies between the left and right edges and between the top and bottom edges, all four inclusive; any single bound that fails makes it false |
| Collision.RectRectIffCommonPoint | src/collision.rs:20-28 | two rectangles of non-negative size collide iff some point lies in both, so rectangles that only touch collide |
| Collision.RectRectSymmetric | src/collision.rs:22-27 | swapping the two rectangles does not change the result |
| Collision.PointIsZeroRect | src/collision.rs:3-27 | `point_in_rect` equals `rect_rect` of a zero-size rectangle at the point |
| Collision.RectRectReflexive | src/collision.rs:22-27 | every rectangle of non-negative size collides with itself |
| Collision.RectRectMonotone | src/collision.rs:22-27 | whatever touches a rectangle contained in another touches the larger one |
| Animation.FMod | src/animation.rs:87 | the remainder has the sign of the dividend and magnitude below the divisor; it is the dividend itself below one period and the dividend less one period in the second period |
| Animation.FModQuotient | src/animation.rs:87 | what `%` takes away from the dividend is a whole number of divisors, the quotient truncated toward zero |
| Animation.NextFrame | src/animation.rs:79-85 | the frame stays below the frame count; without elapsed time it is unchanged; a looping animation steps forward and wraps to 0; a non-looping one advances at most one frame and stays on its last frame |
| Animation.LoopingCycles | src/animation.rs:80-81 | k ≤ frames elapsed updates move a looping animation k frames on, modulo the frame count |
| Animation.LoopingPeriod | src/animation.rs:80-81 | after exactly `frames` elapsed updates a looping animation is back on its starting frame |
| Animation.NonLoopingSaturates | src/animation.rs:82-84 | k elapsed updates bring a non-looping animation to min(frame + k, frames − 1) |
| Animation.Animation.constructor | src/animation.rs:19-35 | a new animation starts on frame 0 with nothing accumulated |
| Animation.Animation.Update | src/animation.rs:76-88 | the frame moves by `NextFrame` when counter + dt exceeds the frame time; the counter becomes (counter + dt) % frame_time; the frame stays in range; a done animation stays done on the same frame; a looping one is never done |
| Animation.Animation.Reset | src/animation.rs:90-93 | frame and counter return to 0, keeping the animation valid |
| Animation.Animation.IsDone | src/animation.rs:95-97 | a valid animation is done iff it does not loop and one more elapsed `update` would leave it on the same frame |
| Actors.HitHp | src/player.rs:240-242 | one hit point is lost, saturating at 0 |
| Actors.HitHpTimes | src/player.rs:240-242 | n hits in a row take hp to max(hp − n, 0) |
| Actors.EndWaveStats | src/player.rs:229-234 | hp rises by exactly 1 (wrapping from 255 to 0); the cap rises by 1 only when hp was at the cap; hp ≤ cap is preserved |
| Actors.PlayerAnimationState.Index | src/player.rs:283-295 | the sprite index is below 7; only the left states are mirrored; index 6 is exactly the dead state |
| Actors.IndexInjective | src/player.rs:283-295 | no two animation states share a sprite and a mirroring |
| Actors.IdleFromDir | src/player.rs:263-271 | each of the four directions maps to an idle sprite (index below 3), mirrored exactly for left |
| Actors.WalkingFromDir | src/player.rs:273-281 | each of the four directions maps to a walking sprite (index 3 to 5), mirrored exactly for left |
| Actors.PlayerDir | src/player.rs:121-123 | the bucket is below 4, so the `unreachable!()` arms are never reached; 1, 2 and 3 hold exactly on their angle ranges |
| Actors.WeaponRotation | src/player.rs:217-221 | for angles up to 360 the rotation lies in [0, 360): 360 − angle for angles in (0, 360] and −angle for angles in (−360, 0] |
| Actors.FacingFollowsCursor | src/player.rs:119-125 | for every `atan2` angle the bucket is right, down, left or up on four exactly stated angle ranges |
| Actors.FacingSprite | src/player.rs:121-147 | for a cursor angle in (−180, 180] the idle and the walking sprite face right exactly on [−45, 45), down on [45, 135), left on [135, 180] ∪ (−180, −135] and up on (−135, −45) |
| Actors.MoveVelocity | src/player.rs:127-143 | for dt > 0 the velocity points right iff D is held without A, left iff A without D, down iff S without W and up iff W without S; each component is at most 40·dt in magnitude |
| Actors.ClampAxis | src/player.rs:150-160 | the clamped coordinate lies in [0, 800 − size] and is the nearest such point to the moved one |
| Actors.AttackStep | src/player.rs:162-184 | the attack animation stays in {0, 1, 2}; held with the current animation done, it becomes 1 and a running charge is kept, otherwise the charge starts at `now`; on release it becomes 2 with no charge; otherwise the charge is kept and the animation returns to 0 (idle) if done, else stays |
| Actors.ParryFires | src/player.rs:168-175 | the parry fires only when a charge is running that started more than 0.2 s before now |
| Actors.ParryOnlyOnSwing | src/player.rs:168-181 | a tick that parries leaves the weapon swinging with the charge cleared |
| Actors.ChargeStartKept | src/player.rs:162-167 | through any run of ticks without a release, a charge keeps the instant it started |
| Actors.ReleaseClearsCharge | src/player.rs:168-181 | a run of ticks whose last tick releases the button, without also holding it over a finished animation, ends with no charge, whatever came before |
| Actors.Player.constructor | src/player.rs:35-57 | a new player has 3 of 3 hit points, no charge, the idle weapon and faces down |
| Actors.Player.CreateAnimations | src/player.rs:59-69 | seven distinct, fresh, looping body animations: three of 4 frames, three of 6, one of 1 |
| Actors.Player.CreateAttackAnimations | src/player.rs:71-77 | three distinct non-looping weapon animations of 1, 3 and 4 frames |
| Actors.Player.GetCenter | src/player.rs:236-238 | the centre lies in the player's rectangle, equidistant from opposite edges |
| Actors.Player.GetHitBox | src/player.rs:223-227 | the hit box is the lower half of the player's rectangle |
| Actors.Player.HitBoxWithinBody | src/player.rs:223-227 | anything touching the hit box touches the player's rectangle |
| Actors.Player.OnHit | src/player.rs:240-242 | hp becomes `HitHp` of the old hp |
| Actors.Player.IsDead | src/player.rs:244-246 | the player is dead exactly when another hit would leave hp unchanged, that is at hp 0 |
| Actors.Player.EndWave | src/player.rs:229-234 | (hp, max_hp) becomes `EndWaveStats` of the old pair |
| Actors.Player.Restart | src/player.rs:201-205 | hp = max_hp = 3 and pos = (400, 400); no other field changes |
| Actors.Player.ChargeAttack | src/player.rs:207-215 | exactly the unreflected butters touching the weapon rectangle become reflected, heading for the cursor; all other butters are untouched; no position or validity changes |
| Actors.Player.Update | src/player.rs:105-199 | `Ticked`, with each animation not named unchanged: a dead player only switches to the dead sprite and changes nothing else; a live one places the weapon toward the cursor with rotation `WeaponRotation`, moves by `MoveVelocity` clamped to the arena, picks the walking sprite iff it moved, steps the weapon by `AttackStep`, parries exactly when `ParryFires` (exactly the unreflected butters touching the weapon turn toward the cursor), rewinds the animations it left, advances the starting body animation and the current weapon animation by one `update`, and keeps hp, max_hp and validity |
| Actors.Player.LiveUpdate | src/player.rs:110-198 | the live half of `update`: the same weapon, movement, attack, parry and animation outcome as `Update` for a player that is not dead, and every animation other than the starting body one and the old and new weapon ones is unchanged |
| Actors.Player.AimAndMove | src/player.rs:111-160 | the weapon sits 40 units toward the cursor from the centre, less half the player's size, with rotation `WeaponRotation`; the position is the old one moved by `MoveVelocity` and clamped per axis; the sprite is walking iff the velocity is non-zero, facing `PlayerDir` of the rotation |
| Actors.Player.Aim | src/player.rs:116-118 | the weapon position is the steered point less half the player's size, and the rotation is `WeaponRotation` of the angle |
| Actors.Player.AttackAndAnimate | src/player.rs:162-198 | the weapon state follows `AttackStep`; exactly when `ParryFires` the unreflected butters touching the weapon turn toward the cursor, and no butter moves or changes validity; animations left are rewound and the body and weapon ones advance by one `update`; every other animation is unchanged |
| Actors.Player.Move | src/player.rs:125-160 | position = clamp(old position + key velocity) per axis; the walking sprite iff the velocity is non-zero |
| Actors.Player.Attack | src/player.rs:162-184 | the attack state follows `AttackStep`, and butters change only by the parry |
| Actors.Player.AdvanceAnimations | src/player.rs:186-198 | a body or weapon animation left this tick is rewound to frame 0 with an empty counter; the body animation of the starting state and the current weapon animation then take one `update` of dt (frame by `NextFrame`, counter by `FMod`); all stay valid |
| Actors.Player.AdvanceBody | src/player.rs:186-197 | the body animation of the state the tick started in is rewound iff the sprite changed, then takes one `update` of dt |
| Actors.Player.AdvanceWeapon | src/player.rs:191-198 | a weapon animation left this tick is rewound; the current one takes one `update` of dt |
| Actors.Butter.constructor | src/enemy.rs:50-61 | the butter starts at the given position, unreflected and valid, with velocity = start − steer(start, target, 44) |
| Actors.Butter.Update | src/enemy.rs:63-78 | pos becomes `Moved(dt)`, pos − velocity·dt; velocity and reflection are unchanged; exactly when `HitsPlayer` (unreflected, with the moved rectangle touching the player's) the player loses one hit point, saturating at 0, and the butter becomes invalid; otherwise the player and the flag are untouched |
| Actors.Butter.ChangeTarget | src/enemy.rs:84-89 | the butter becomes reflected with a velocity toward the new target; position and validity are unchanged |
| Actors.Butter.IsReflected | src/enemy.rs:91-93 | returns the reflected flag; what sets it is stated by `Butter.ChangeTarget` and by the `Parried` outcome of `Player.Update`, and every butter contract keeps it once set |
| Actors.Enemy.constructor | src/enemy.rs:19-26 | the enemy starts at the given position with its cooldown starting now |
| Actors.Enemy.Update | src/enemy.rs:32-37 | once more than 1 s has passed since the last shot, exactly one new butter is appended at the enemy's position, aimed at the player's centre, and the cooldown restarts; otherwise the list and the cooldown are unchanged |
| Levels.CastU32 | src/level.rs:174 | `as u32` truncates towards zero and saturates at 0 and 2^32 − 1 |
| Levels.Round | src/level.rs:172 | the result is an integer within 0.5 of the input, with halves rounded away from zero |
| Levels.RoundMonotone | src/level.rs:172 | rounding preserves order on non-negative inputs |
| Levels.CastU32Monotone | src/level.rs:172-174 | the cast preserves order |
| Levels.EnemiesToSpawn | src/level.rs:169-176 | every wave sends at least 4 enemies; through wave 11 the count is 4 plus a multiple of 5 |
| Levels.FirstWaveSendsFour | src/level.rs:169-176 | when pow(0, 1.1) = 0 the first wave sends exactly 4 |
| Levels.EnemiesToSpawnMonotone | src/level.rs:169-176 | with a pow that grows in its base, a later wave on the same side of wave 11 never sends fewer enemies |
| Levels.SpawnTimer | src/level.rs:178-182 | the interval lies in [0.3, 10] and is 10 for the first wave |
| Levels.SpawnTimerNonIncreasing | src/level.rs:178-182 | later waves never spawn more slowly |
| Levels.SpawnTimerFloor | src/level.rs:178-182 | the interval is at its 0.3 s floor from wave 7 on and above it before |
| Levels.SpawnPosition | src/level.rs:126-136 | the enemy stands at x = −50 (side 0) or x = 850 (side 1) with y the drawn offset, or at y = −50 (side 2) or y = 850 (side 3) with x the drawn offset; so it is on the drawn side, at most 50 units outside the arena and shares no interior point with it |
| Levels.LiveButters | src/level.rs:67 | the kept butters are exactly the valid ones strictly inside (0, 800) on both axes |
| Levels.LiveInArena | src/level.rs:67 | a kept butter is valid and inside the closed arena; a valid butter inside the closed arena is kept iff it lies on none of the four edges |
| Levels.LiveButtersConcat | src/level.rs:67 | filtering works element by element and keeps the order |
| Levels.LiveButtersIdempotent | src/level.rs:67 | filtering twice keeps nothing more |
| Levels.ValidEnemies | src/level.rs:70 | the kept enemies are exactly the valid ones |
| Levels.RetainCountsKills | src/level.rs:69-73 | the drop in roster length equals the number of invalid enemies removed |
| Levels.TouchCount | src/enemy.rs:72-75 | at most one hit per butter: the number of hostile butters touching the player never exceeds the number of butters |
| Levels.DistinctIndices | src/level.rs:64-67 | in a list that owns its butters, different indices hold different butters |
| Levels.DistinctAppend | src/enemy.rs:34 | pushing a butter that is not listed yet keeps every butter listed once |
| Levels.LiveButtersDistinct | src/level.rs:67 | retaining keeps every butter listed once |
| Levels.Level.constructor | src/level.rs:30-56 | a new level has wave 1, nothing spawned, timer 0, no kills, empty rosters and a fresh player at (400, 400) |
| Levels.Level.GetWave | src/level.rs:161-163 | the wave number is never 0 |
| Levels.Level.GetKills | src/level.rs:165-167 | kills plus enemies on the field never exceed the enemies spawned since the last restart |
| Levels.Level.PlayerDead | src/level.rs:115-117 | true iff the player's hp is 0 |
| Levels.Level.IsWaveOver | src/level.rs:142-145 | a wave is over only when no enemy is left and at least 4 have been spawned |
| Levels.Level.CanSpawn | src/level.rs:122-124 | a spawn is allowed only while the wave is not over and one more enemy stays within the wave's count |
| Levels.Level.SpawnEnemy | src/level.rs:119-140 | exactly one fresh valid enemy is appended at `SpawnPosition` of the draw iff spawned < to-spawn, timer − dt < 0 and roster < wave + 2; a spawn adds 1 to the spawn count and resets the timer to `SpawnTimer`; otherwise the timer drops by dt and nothing else changes; the level invariant is kept |
| Levels.Level.SetWave | src/level.rs:147-159 | the player gets `EndWaveStats` iff the wave number goes up; the new wave then spawns its first enemy at once when the field has room |
| Levels.Level.AdvanceWave | src/level.rs:80-82 | when the wave is over, the wave number rises by exactly 1 with the end-wave bonus, and exactly one new enemy is on the field with a spawn count of 1; afterwards the wave is never over |
| Levels.Level.Prune | src/level.rs:67-73 | butters become `LiveButters`, enemies become `ValidEnemies`, and kills grow by exactly the number of invalid enemies removed |
| Levels.Level.PruneButters | src/level.rs:67 | the butters become `LiveButters` of the old ones: each kept butter was listed before and is live |
| Levels.Level.PruneEnemies | src/level.rs:69-73 | the enemies become `ValidEnemies` of the old ones and kills grow by exactly the number removed |
| Levels.Level.DropOutOfPlay | src/level.rs:91-92 | the enemies become `ValidEnemies` and the butters `LiveButters` of the old lists; kills are untouched; the hit count of the old butters does not change |
| Levels.Level.UpdateEnemies | src/level.rs:64 | the old butters stay as a prefix, followed only by fresh valid unreflected butters, at most one per enemy; no enemy moves or changes validity; the level invariant is kept |
| Levels.Level.FireAll | src/level.rs:64 | the loop over the enemies: the same outcome, with the butters kept distinct |
| Levels.Level.EnemyTurn | src/level.rs:64 | one enemy appends at most one fresh valid unreflected butter and nothing else in the list changes; the enemy keeps its position and validity |
| Levels.Level.Defeat | src/level.rs:70 | exactly the defeated enemies lose their validity |
| Levels.Level.UpdateButters | src/level.rs:66 | each butter takes one `update` (`Turned`): it ends at its moved position with velocity and reflection unchanged, valid iff it was valid and did not hit the player; the player's hp drops by exactly the number of hostile butters that end on the player, saturating at 0 (`HitHpTimes` of `TouchCount`); the level invariant is kept |
| Levels.Level.MoveButters | src/level.rs:66 | the loop over the butters, in list order: the same butter and hp outcome |
| Levels.Level.StepButter | src/level.rs:66 | one butter takes its `update`; the hp drop so far grows by one, saturating, exactly when it ends hostile on the player; no other butter changes |
| Levels.Level.Play | src/level.rs:61-66 | each old butter is first `Parried` (reflected toward the cursor exactly when the parry fires and it was hostile on the weapon) and then `Flew` (moved by its possibly new velocity, valid iff it was valid and does not end hostile on the player); the butters fired this tick follow the old ones, at most one per enemy, fresh and hostile, valid iff not on the player; hp drops by exactly `TouchCount` of the final list, saturating, and max_hp is unchanged; exactly the defeated enemies lose validity and no enemy moves; the level invariant holds |
| Levels.Level.EnemyPhase | src/level.rs:64 | every enemy's turn, then the defeated enemies leave play: the old butters stay as a prefix followed by at most one fresh valid unreflected butter per enemy; exactly the defeated enemies lose validity and no enemy moves; the level invariant is kept |
| Levels.Level.PlayerTurn | src/level.rs:61 | the player's tick within the level: every butter is `Parried` and keeps its position and validity; hp, max_hp and the level invariant are kept |
| Levels.Level.EnemiesAndButters | src/level.rs:63-66 | every old butter is `Turned`; the butters fired this tick follow the old ones, at most one per enemy, fresh and hostile, valid iff not on the player; hp drops by exactly `TouchCount` of the final list, saturating; exactly the defeated enemies lose validity and no enemy moves |
| Levels.Level.Update | src/level.rs:58-83 | the level invariant is kept (wave ≥ 1, spawned ≤ to-spawn, roster ≤ wave + 2, no butter listed twice); all surviving butters are live; all enemies are valid; the wave is never left over; the wave number rises by at most 1; kills never fall |
| Levels.Level.Settle | src/level.rs:67-82 | the butters become `LiveButters` of the old list and kills grow by exactly `Defeated` of the old roster; the wave was over iff the whole wave had been sent and no old enemy is valid, and then the wave number rises by 1 with the end-wave bonus and exactly one fresh enemy stands at the drawn spawn position with its cooldown at `now`; otherwise the enemies become `ValidEnemies` of the old roster and wave, spawn count, timer and hp stay; afterwards the wave is not over |
| Levels.Level.DeadUpdate | src/level.rs:85-93 | nothing spawns; wave, spawn count, timer and kills are unchanged; each old butter is `Parried` and then `Flew`; the butters become `LiveButters` and the enemies `ValidEnemies` of the old lists; hp drops by exactly `TouchCount` of the old butters, saturating; exactly the defeated enemies lose validity and no enemy moves |
| Levels.Level.DeadSweep | src/level.rs:89-92 | every old butter is `Turned`; hp drops by exactly `TouchCount` of the old butters; then the butters become `LiveButters` and the enemies `ValidEnemies` of the old lists, the defeated ones having lost validity |
| Levels.Level.DeadMove | src/level.rs:89-90 | exactly the defeated enemies lose validity, every butter is `Turned` and hp drops by exactly `TouchCount` of the butters |
| Levels.Level.Restart | src/level.rs:107-113 | no butters, no kills, wave 1 with its first enemy at the drawn spawn position, its cooldown at `now`, and the 10 s timer; the player gets 3 of 3 hit points at (400, 400) without the end-wave bonus, and its charge, weapon, sprite and animations are left as they were |

## Left out

- Rendering: every `draw`, `add_instance`, `add_with_rotation`, the heart row, the materials, the textures and the sprite coordinates. `src/text.rs` and the menus of `src/main.rs` are not part of this model.
- `move_towards` (`src/main.rs:196-209`) uses a square root and a division. It is the parameter `steer`, and no property of it is assumed.
- `atan2` in `rotoate_weapon` is the input `angle`; the model computes the rotation from it.
- Floating point: every `f32` value is an exact real, so `f32` rounding, NaN and infinities are not modelled. `as u32` is modelled as a saturating truncation, NaN excepted.
- `f32::powf` is the function field `pow`; the model assumes no property of it. `FirstWaveSendsFour` and `EnemiesToSpawnMonotone` name what they need as preconditions.
- Levels.EnemiesToSpawn: does not model u32 overflow of `* 5 + 4`, because `pow` is abstract and the product is unbounded here.
- Levels.Level.GetKills: does not model u32 overflow of the kill counter or the wave number, which are `nat` here.
- Clocks: `Instant::now` and `elapsed` become timestamps and the parameter `now`, so a charge time is `now − start`.
- Randomness: the spawn side and offset are drawn from `ThreadRng`; each spawn receives them as a `SpawnDraw` parameter.
- The missing enemy methods `is_valid`, `walk_off`, `dead_update` and `Enemy::create_animations`. An enemy's validity is a flag, and the enemies leaving play in a tick are the `defeated` parameter. Walking off after the player's death, an enemy's own death animation and reflected butters damaging enemies are therefore not modelled.
- The enemy animations that `Level::update` advances are visual only and not modelled.
- Levels.Level.Update: states the level invariant, the live rosters, the wave step of at most 1 and that kills never fall, not the exact rosters, hp and butter outcomes. Those are stated by `SpawnEnemy`, `Play` and `Settle`, which it runs in turn; `Play`'s contract speaks of the state after the spawn, not of the state `Update` starts in.
- Levels.Level.Play: does not restate the player's own movement, aim, weapon state and animations; `Actors.Player.Update` states them (`Ticked`), and `Play` runs it first through `PlayerTurn`.
- Levels.Level.DeadUpdate: does not restate the player's own tick either; it is stated by `Actors.Player.Update`.
- That no operation ever clears `reflected` is not one lemma. Each contract that follows the butters states it: `Butter.Update`, `Butter.ChangeTarget`, `Player.ChargeAttack`, `Player.Update` (`Parried`), `Level.UpdateButters`, `Level.EnemiesAndButters` and `Level.DeadSweep` (`Turned`), `Level.Play` and `Level.DeadUpdate` (`Parried`). `Level.Update` does not.
- Actors.EndWaveStats: at hp 255 the `u8` increment wraps to 0 as in a release build; a debug build would panic instead.
