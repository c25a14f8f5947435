/**
 * The player, the enemies and their projectiles ("butter"). They share one
 * module because a butter's update damages the player and the player's
 * parry retargets butters.
 */
module Actors {
  import opened Vectors
  import opened Collision
  import opened Animation

  /** Rust's `u8`, the type of the player's hit points. */
  newtype u8 = x: int | 0 <= x < 256

  datatype Option<T> = None | Some(value: T)

  // ---------------------------------------------------------------------------
  // Health arithmetic
  // ---------------------------------------------------------------------------

  /** `hp.saturating_sub(1)`: one hit point is lost, and none below zero. */
  function HitHp(hp: u8): (r: u8)
    ensures r <= hp
    ensures hp > 0 ==> r == hp - 1
    ensures r == 0 ==> hp <= 1
  {
    if hp == 0 then 0 else hp - 1
  }

  /** `n` hits in a row: hp drops by `n`, and never below zero. */
  function HitHpTimes(hp: u8, n: nat): (r: u8)
    ensures r as int == if hp as int >= n then hp as int - n else 0
    decreases n
  {
    if n == 0 then hp else HitHp(HitHpTimes(hp, n - 1))
  }

  /**
   * `end_wave` on the pair (hp, max_hp): one hit point is healed; when that
   * takes hp above the cap, the cap goes up instead of being exceeded. The
   * `u8` increment wraps from 255 to 0, as a release build does.
   */
  function EndWaveStats(hp: u8, maxHp: u8): (r: (u8, u8))
    ensures hp < 255 ==> r.0 == hp + 1
    ensures hp == 255 ==> r.0 == 0
    ensures hp <= maxHp ==> r.0 <= r.1
    ensures hp < maxHp ==> r.1 == maxHp
    ensures hp == maxHp < 255 ==> r.1 == maxHp + 1
    ensures maxHp as int <= r.1 as int <= maxHp as int + 1
  {
    var healed := ((hp as int + 1) % 256) as u8;
    (healed, if healed > maxHp then maxHp + 1 else maxHp)
  }

  // ---------------------------------------------------------------------------
  // Facing and sprite selection
  // ---------------------------------------------------------------------------

  datatype PlayerAnimationState =
    | IdleUp | IdleDown | IdleLeft | IdleRight
    | WalkingUp | WalkingDown | WalkingLeft | WalkingRight
    | Dead
  {
    /** Which of the seven body animations is shown, and whether it is mirrored. */
    function Index(): (r: (nat, bool))
      ensures r.0 < 7
      ensures r.1 <==> this == IdleLeft || this == WalkingLeft
      ensures r.0 == 6 <==> this == Dead
    {
      match this
      case IdleUp => (0, false)
      case IdleDown => (1, false)
      case IdleLeft => (2, true)
      case IdleRight => (2, false)
      case WalkingUp => (3, false)
      case WalkingDown => (4, false)
      case WalkingLeft => (5, true)
      case WalkingRight => (5, false)
      case Dead => (6, false)
    }
  }

  /** No two animation states share a sprite and a mirroring: left reuses the right sheet mirrored. */
  lemma IndexInjective(a: PlayerAnimationState, b: PlayerAnimationState)
    ensures a.Index() == b.Index() ==> a == b
  {
  }

  function IdleFromDir(dir: nat): (s: PlayerAnimationState)
    requires dir < 4
    ensures s.Index().0 < 3
    ensures s.Index().1 <==> dir == 2
  {
    match dir
    case 0 => IdleUp
    case 1 => IdleDown
    case 2 => IdleLeft
    case 3 => IdleRight
  }

  function WalkingFromDir(dir: nat): (s: PlayerAnimationState)
    requires dir < 4
    ensures 3 <= s.Index().0 < 6
    ensures s.Index().1 <==> dir == 2
  {
    match dir
    case 0 => WalkingUp
    case 1 => WalkingDown
    case 2 => WalkingLeft
    case 3 => WalkingRight
  }

  function Indicator(b: bool): nat {
    if b then 1 else 0
  }

  /**
   * The facing bucket of a weapon rotation in degrees (0 points right):
   * 1 down, 2 left, 3 right, 0 up. It is a sum of three indicator terms, so
   * it stays below 4 only because the three angle ranges are disjoint.
   */
  function PlayerDir(rotation: real): (d: nat)
    ensures d < 4
    ensures d == 1 <==> 225.0 < rotation <= 315.0
    ensures d == 2 <==> 135.0 <= rotation <= 225.0
    ensures d == 3 <==> (315.0 < rotation <= 360.0) || rotation <= 45.0
  {
    1 * Indicator(rotation > 225.0 && rotation <= 315.0) +
    2 * Indicator(rotation >= 135.0 && rotation <= 225.0) +
    3 * Indicator((rotation > 315.0 && rotation <= 360.0) || rotation <= 45.0)
  }

  /**
   * `rotoate_weapon` after `atan2`: `angle` is the direction from the
   * player's centre to the cursor in degrees, in (-180, 180] and measured
   * with the screen's y axis pointing down; the weapon rotation is
   * `(360 - angle) % 360`, in [0, 360).
   */
  function WeaponRotation(angle: real): (r: real)
    ensures angle <= 360.0 ==> 0.0 <= r < 360.0
    ensures 0.0 < angle <= 360.0 ==> r == 360.0 - angle
    ensures -360.0 < angle <= 0.0 ==> r == -angle
  {
    FMod(360.0 - angle, 360.0)
  }

  /**
   * The sprite faces the cursor: right within 45 degrees of the x axis,
   * down below it, left beyond 135 degrees and up above it (the boundary
   * at 45 degrees goes down, the one at -45 right).
   */
  lemma FacingFollowsCursor(angle: real)
    requires -180.0 < angle <= 180.0
    ensures PlayerDir(WeaponRotation(angle)) == 3 <==> -45.0 <= angle < 45.0
    ensures PlayerDir(WeaponRotation(angle)) == 1 <==> 45.0 <= angle < 135.0
    ensures PlayerDir(WeaponRotation(angle)) == 2 <==> 135.0 <= angle || angle <= -135.0
    ensures PlayerDir(WeaponRotation(angle)) == 0 <==> -135.0 < angle < -45.0
  {
  }

  // ---------------------------------------------------------------------------
  // Movement
  // ---------------------------------------------------------------------------

  /** The engine's input for one tick: the W, A, S, D keys and the left mouse button and cursor. */
  datatype Input = Input(keyW: bool, keyA: bool, keyS: bool, keyD: bool,
                         mouseDown: bool, mouseReleased: bool, mouse: Vec2)

  /**
   * The displacement the held movement keys ask for: 40 units per second per
   * axis, diagonals not normalised. Opposite keys cancel; each axis moves
   * towards the one key of its pair that is held alone.
   */
  function MoveVelocity(input: Input, dt: real): (v: Vec2)
    ensures dt > 0.0 ==> (v.x > 0.0 <==> input.keyD && !input.keyA)
    ensures dt > 0.0 ==> (v.x < 0.0 <==> input.keyA && !input.keyD)
    ensures dt > 0.0 ==> (v.y > 0.0 <==> input.keyS && !input.keyW)
    ensures dt > 0.0 ==> (v.y < 0.0 <==> input.keyW && !input.keyS)
    ensures dt >= 0.0 ==> Dist(v.x, 0.0) <= 40.0 * dt && Dist(v.y, 0.0) <= 40.0 * dt
  {
    var m := 40.0 * dt;
    Vec2((if input.keyA then -m else 0.0) + (if input.keyD then m else 0.0),
         (if input.keyW then -m else 0.0) + (if input.keyS then m else 0.0))
  }

  function Dist(a: real, b: real): real {
    if a >= b then a - b else b - a
  }

  /** One axis of the arena clamp: the point of [0, hi] nearest to `v`. */
  function ClampAxis(v: real, hi: real): (r: real)
    requires hi >= 0.0
    ensures 0.0 <= r <= hi
    ensures forall t :: 0.0 <= t <= hi ==> Dist(r, v) <= Dist(t, v)
  {
    if v > hi then hi else if v < 0.0 then 0.0 else v
  }

  // ---------------------------------------------------------------------------
  // Attack state machine
  // ---------------------------------------------------------------------------

  /**
   * One tick of the weapon state machine on (current attack animation,
   * charge start): 0 idle, 1 charging, 2 swinging. `done` says whether the
   * current attack animation has finished, `held` and `released` report
   * the left mouse button, `now` is the clock.
   */
  function AttackStep(animation: nat, chargeTimer: Option<real>, done: bool, held: bool, released: bool, now: real)
    : (r: (nat, Option<real>))
    requires animation < 3
    ensures r.0 < 3
    ensures held && done ==> r.0 == 1 && r.1.Some? && (chargeTimer.Some? ==> r.1 == chargeTimer)
    ensures !(held && done) && released ==> r == (2, None)
    ensures held && done && chargeTimer.None? ==> r.1 == Some(now)
    ensures !(held && done) && !released ==> r.1 == chargeTimer && r.0 == (if done then 0 else animation)
    ensures r.1.Some? && chargeTimer.Some? ==> r.1 == chargeTimer
  {
    if held && done then
      (1, if chargeTimer.Some? then chargeTimer else Some(now))
    else if released then
      (2, None)
    else if done then
      (0, chargeTimer)
    else
      (animation, chargeTimer)
  }

  /**
   * The release that parries: the button is let go after a charge that
   * lasted more than 0.2 seconds.
   */
  function ParryFires(chargeTimer: Option<real>, done: bool, held: bool, released: bool, now: real): (r: bool)
    ensures r ==> chargeTimer.Some? && now - chargeTimer.value > 0.2
  {
    !(held && done) && released && chargeTimer.Some? && now - chargeTimer.value > 0.2
  }

  /** A parry never fires on a tick that leaves the weapon anywhere but in its swing. */
  lemma ParryOnlyOnSwing(animation: nat, chargeTimer: Option<real>, done: bool, held: bool, released: bool, now: real)
    requires animation < 3
    requires ParryFires(chargeTimer, done, held, released, now)
    ensures AttackStep(animation, chargeTimer, done, held, released, now) == (2, None)
  {
  }

  datatype Tick = Tick(done: bool, held: bool, released: bool, now: real)

  /** The weapon state after a run of ticks. */
  function RunAttack(animation: nat, chargeTimer: Option<real>, ticks: seq<Tick>): (r: (nat, Option<real>))
    requires animation < 3
    ensures r.0 < 3
    decreases |ticks|
  {
    if ticks == [] then (animation, chargeTimer)
    else
      var t := ticks[0];
      var s := AttackStep(animation, chargeTimer, t.done, t.held, t.released, t.now);
      RunAttack(s.0, s.1, ticks[1..])
  }

  /**
   * The sprite a live player shows faces the cursor: the idle and walking
   * sprites of each direction are chosen on the same four angle ranges as
   * the facing bucket.
   */
  lemma FacingSprite(angle: real)
    requires -180.0 < angle <= 180.0
    ensures IdleFromDir(PlayerDir(WeaponRotation(angle))) == IdleRight <==> -45.0 <= angle < 45.0
    ensures IdleFromDir(PlayerDir(WeaponRotation(angle))) == IdleDown <==> 45.0 <= angle < 135.0
    ensures IdleFromDir(PlayerDir(WeaponRotation(angle))) == IdleLeft <==> 135.0 <= angle || angle <= -135.0
    ensures IdleFromDir(PlayerDir(WeaponRotation(angle))) == IdleUp <==> -135.0 < angle < -45.0
    ensures WalkingFromDir(PlayerDir(WeaponRotation(angle))) == WalkingRight <==> -45.0 <= angle < 45.0
    ensures WalkingFromDir(PlayerDir(WeaponRotation(angle))) == WalkingDown <==> 45.0 <= angle < 135.0
    ensures WalkingFromDir(PlayerDir(WeaponRotation(angle))) == WalkingLeft <==> 135.0 <= angle || angle <= -135.0
    ensures WalkingFromDir(PlayerDir(WeaponRotation(angle))) == WalkingUp <==> -135.0 < angle < -45.0
  {
    FacingFollowsCursor(angle);
  }

  /**
   * A charge, once started, keeps its start instant through any run of ticks
   * without a release, so the charge time measured at release counts from
   * the tick that started the charge, which `AttackStep` stamps with its `now`.
   */
  lemma {:induction false} ChargeStartKept(animation: nat, start: real, ticks: seq<Tick>)
    requires animation < 3
    requires forall i | 0 <= i < |ticks| :: !ticks[i].released
    ensures RunAttack(animation, Some(start), ticks).1 == Some(start)
    decreases |ticks|
  {
    if ticks != [] {
      var t := ticks[0];
      var s := AttackStep(animation, Some(start), t.done, t.held, t.released, t.now);
      assert s.1 == Some(start);
      ChargeStartKept(s.0, start, ticks[1..]);
    }
  }

  /** A release always ends the charge: the next state has no charge start, whatever came before. */
  lemma {:induction false} ReleaseClearsCharge(animation: nat, chargeTimer: Option<real>, ticks: seq<Tick>)
    requires animation < 3 && ticks != []
    requires Last(ticks).released && !(Last(ticks).held && Last(ticks).done)
    ensures RunAttack(animation, chargeTimer, ticks).1 == None
    decreases |ticks|
  {
    var t := ticks[0];
    var s := AttackStep(animation, chargeTimer, t.done, t.held, t.released, t.now);
    if |ticks| > 1 {
      assert Last(ticks[1..]) == Last(ticks);
      ReleaseClearsCharge(s.0, s.1, ticks[1..]);
    }
  }

  function Last<T>(s: seq<T>): T
    requires s != []
  {
    s[|s| - 1]
  }

  // ---------------------------------------------------------------------------
  // Player
  // ---------------------------------------------------------------------------

  class Player {
    var pos: Vec2
    const size: Vec2 := Vec2(50.0, 50.0)
    var hp: u8
    var maxHp: u8
    /** The instant the current charge started, if the attack button is being held. */
    var chargeTimer: Option<real>
    var weaponPos: Vec2
    const weaponSize: Vec2 := Vec2(75.0, 120.0)
    var animationState: PlayerAnimationState
    /** Body animations, indexed by `PlayerAnimationState.Index`. */
    const animations: seq<Animation>
    /** Weapon animations: 0 idle, 1 charge, 2 swing. */
    const attackAnimations: seq<Animation>
    var currentAttackAnimation: nat
    var rotation: real

    function Anims(): set<Animation> {
      (set a | a in animations) + (set a | a in attackAnimations)
    }

    ghost predicate Valid()
      reads this, Anims()
    {
      hp <= maxHp && currentAttackAnimation < 3 && AnimsValid()
    }

    /** The animation set-up: seven distinct body and three distinct weapon animations, all valid, the idle weapon one a still frame. */
    ghost predicate AnimsValid()
      reads Anims()
    {
      && |animations| == 7 && |attackAnimations| == 3
      && (forall i | 0 <= i < 7 :: animations[i].Valid())
      && (forall j | 0 <= j < 3 :: attackAnimations[j].Valid())
      && attackAnimations[0].frames == 1 && !attackAnimations[0].looping
      && attackAnimations[0] != attackAnimations[1]
      && attackAnimations[0] != attackAnimations[2]
      && attackAnimations[1] != attackAnimations[2]
      && (forall i, j | 0 <= i < j < 7 :: animations[i] != animations[j])
      && (forall i, j | 0 <= i < 7 && 0 <= j < 3 :: animations[i] != attackAnimations[j])
    }

    /** `Player::new`: full health (3 of 3), weapon idle, no charge, facing down. */
    constructor (pos: Vec2)
      ensures Valid() && fresh(Anims())
      ensures this.pos == pos && hp == 3 && maxHp == 3
      ensures chargeTimer == None && currentAttackAnimation == 0 && animationState == IdleDown
    {
      this.pos := pos;
      hp := 3;
      maxHp := 3;
      chargeTimer := None;
      weaponPos := Vec2(0.0, 0.0);
      animationState := IdleDown;
      var body := CreateAnimations();
      var weapon := CreateAttackAnimations();
      animations := body;
      attackAnimations := weapon;
      currentAttackAnimation := 0;
      rotation := 0.0;
    }

    /** The seven body animations: four-frame idles, six-frame walks and a one-frame death, all looping at six frames a second. */
    static method CreateAnimations() returns (anims: seq<Animation>)
      ensures |anims| == 7
      ensures forall i | 0 <= i < 7 :: fresh(anims[i]) && anims[i].Valid() && anims[i].looping
      ensures forall i, j | 0 <= i < j < 7 :: anims[i] != anims[j]
      ensures forall i | 0 <= i < 3 :: anims[i].frames == 4
      ensures forall i | 3 <= i < 6 :: anims[i].frames == 6
      ensures anims[6].frames == 1
    {
      var idleUp := new Animation(4, 1.0 / 6.0, true);
      var idle := new Animation(4, 1.0 / 6.0, true);
      var idleSide := new Animation(4, 1.0 / 6.0, true);
      var walkUp := new Animation(6, 1.0 / 6.0, true);
      var walk := new Animation(6, 1.0 / 6.0, true);
      var walkSide := new Animation(6, 1.0 / 6.0, true);
      var death := new Animation(1, 1.0 / 6.0, true);
      anims := [idleUp, idle, idleSide, walkUp, walk, walkSide, death];
    }

    /** The three weapon animations, none looping: a one-frame idle, a three-frame charge and a four-frame swing. */
    static method CreateAttackAnimations() returns (anims: seq<Animation>)
      ensures |anims| == 3
      ensures forall j | 0 <= j < 3 :: fresh(anims[j]) && anims[j].Valid() && !anims[j].looping
      ensures anims[0] != anims[1] && anims[0] != anims[2] && anims[1] != anims[2]
      ensures anims[0].frames == 1 && anims[1].frames == 3 && anims[2].frames == 4
    {
      var pinIdle := new Animation(1, 100.0, false);
      var pinCharge := new Animation(3, 1.0 / 7.0, false);
      var pinSwing := new Animation(4, 1.0 / 6.0, false);
      anims := [pinIdle, pinCharge, pinSwing];
    }

    /** Out of hit points: exactly when a further hit changes nothing. */
    function IsDead(): (r: bool)
      reads this
      ensures r <==> HitHp(hp) == hp
    {
      hp == 0
    }

    /** The centre of the player's rectangle. */
    function GetCenter(): (c: Vec2)
      reads this
      ensures PointInRect(size, pos, c)
      ensures c.x - pos.x == pos.x + size.x - c.x && c.y - pos.y == pos.y + size.y - c.y
    {
      Vec2(pos.x + size.x / 2.0, pos.y + size.y / 2.0)
    }

    /** The lower half of the player's rectangle, as (position, size). */
    function GetHitBox(): (r: (Vec2, Vec2))
      reads this
      ensures r.0.x == pos.x && r.1.x == size.x
      ensures r.0.y + r.1.y == pos.y + size.y && 2.0 * r.1.y == size.y
    {
      var pos := Vec2(pos.x, pos.y + size.y / 2.0);
      var size := Vec2(size.x, size.y / 2.0);
      (pos, size)
    }

    /**
     * Whatever touches the hit box touches the player's whole rectangle, so
     * the full-rectangle test used by the butter hits at least as often.
     */
    lemma HitBoxWithinBody(s: Vec2, p: Vec2)
      ensures RectRect(s, p, GetHitBox().1, GetHitBox().0) ==> RectRect(s, p, size, pos)
    {
      var hb := GetHitBox();
      RectRectMonotone(s, p, hb.1, hb.0, size, pos);
    }

    method OnHit()
      modifies this`hp
      ensures hp == HitHp(old(hp))
    {
      hp := if hp == 0 then 0 else hp - 1;
    }

    method EndWave()
      modifies this`hp, this`maxHp
      ensures (hp, maxHp) == EndWaveStats(old(hp), old(maxHp))
    {
      hp := ((hp as int + 1) % 256) as u8;
      if hp > maxHp {
        maxHp := maxHp + 1;
      }
    }

    /** Back to 3 of 3 hit points in the middle of the arena; nothing else is reset. */
    method Restart()
      modifies this`hp, this`maxHp, this`pos
      ensures hp == 3 && maxHp == 3 && pos == Vec2(400.0, 400.0)
    {
      hp := 3;
      maxHp := 3;
      pos := Vec2(400.0, 400.0);
    }

    /**
     * The parry: every butter that is not yet reflected and touches the
     * weapon rectangle is sent towards the cursor; no other butter changes.
     */
    method ChargeAttack(chargeTime: real, butters: seq<Butter>, mousePos: Vec2, steer: Steering)
      modifies set b | b in butters
      ensures forall b | b in butters :: b.pos == old(b.pos) && b.valid == old(b.valid)
      ensures forall b | b in butters ::
        if !old(b.reflected) && RectRect(b.size, b.pos, weaponSize, weaponPos)
        then b.reflected && b.velocity == Sub(b.pos, steer(b.pos, mousePos, 44.0))
        else b.reflected == old(b.reflected) && b.velocity == old(b.velocity)
    {
      var i := 0;
      while i < |butters|
        invariant 0 <= i <= |butters|
        invariant forall b | b in butters :: b.pos == old(b.pos) && b.valid == old(b.valid)
        invariant forall b | b in butters ::
          if b in butters[..i] && !old(b.reflected) && RectRect(b.size, b.pos, weaponSize, weaponPos)
          then b.reflected && b.velocity == Sub(b.pos, steer(b.pos, mousePos, 44.0))
          else b.reflected == old(b.reflected) && b.velocity == old(b.velocity)
      {
        var b := butters[i];
        if !b.IsReflected() && RectRect(b.size, b.pos, weaponSize, weaponPos) {
          b.ChangeTarget(mousePos, steer);
        }
        assert butters[..i + 1] == butters[..i] + [b];
        i := i + 1;
      }
      assert butters[..i] == butters;
    }

    /**
     * Between the old state and this one, the player has taken one tick
     * with `input`, the cursor at `angle` degrees and the clock at `now`. A
     * dead player only shows the death sprite. A living one places and
     * turns its weapon, moves within the arena, picks its sprite and steps
     * its weapon state machine; the body animation of the state the tick
     * started in (rewound first if the sprite changed) and the current
     * weapon animation advance by `dt`, a weapon animation left this tick
     * is rewound, and every other animation is untouched.
     */
    twostate predicate Ticked(input: Input, dt: real, now: real, angle: real, steer: Steering)
      requires old(Valid()) && AnimsValid() && currentAttackAnimation < 3
      reads this`pos, this`weaponPos, this`rotation, this`animationState, this`chargeTimer,
            this`currentAttackAnimation, Anims()
    {
      if old(IsDead()) then
        && animationState == Dead && pos == old(pos) && chargeTimer == old(chargeTimer)
        && currentAttackAnimation == old(currentAttackAnimation)
        && weaponPos == old(weaponPos) && rotation == old(rotation)
        && (forall i | 0 <= i < 7 :: unchanged(animations[i]))
        && (forall j | 0 <= j < 3 :: unchanged(attackAnimations[j]))
      else
        // Weapon placement and movement, clamped to the arena.
        && rotation == WeaponRotation(angle)
        && weaponPos == Sub(steer(old(GetCenter()), input.mouse, 40.0), Vec2(size.x / 2.0, size.y / 2.0))
        && pos == Vec2(ClampAxis(old(pos).x + MoveVelocity(input, dt).x, ARENA - size.x),
                       ClampAxis(old(pos).y + MoveVelocity(input, dt).y, ARENA - size.y))
        && animationState == (if MoveVelocity(input, dt) != Vec2(0.0, 0.0)
                              then WalkingFromDir(PlayerDir(rotation)) else IdleFromDir(PlayerDir(rotation)))
        // The weapon state machine, driven by whether the current weapon animation had finished.
        && (currentAttackAnimation, chargeTimer)
             == AttackStep(old(currentAttackAnimation), old(chargeTimer),
                           old(attackAnimations[currentAttackAnimation].IsDone()),
                           input.mouseDown, input.mouseReleased, now)
        // The animations.
        && (var body := animations[old(animationState).Index().0];
            var rewound := animationState != old(animationState);
            var frame := if rewound then 0 else old(body.currentFrame);
            var counter := if rewound then 0.0 else old(body.frameTimeCounter);
            && body.currentFrame == NextFrame(frame, body.frames, body.looping, counter + dt > body.frameTime)
            && body.frameTimeCounter == FMod(counter + dt, body.frameTime))
        && (var weapon := attackAnimations[currentAttackAnimation];
            && weapon.currentFrame == NextFrame(old(weapon.currentFrame), weapon.frames, weapon.looping,
                                                old(weapon.frameTimeCounter) + dt > weapon.frameTime)
            && weapon.frameTimeCounter == FMod(old(weapon.frameTimeCounter) + dt, weapon.frameTime))
        && (currentAttackAnimation != old(currentAttackAnimation) ==>
              attackAnimations[old(currentAttackAnimation)].currentFrame == 0
              && attackAnimations[old(currentAttackAnimation)].frameTimeCounter == 0.0)
        // No other animation changes.
        && (forall i | 0 <= i < 7 && animations[i] != animations[old(animationState).Index().0] ::
              unchanged(animations[i]))
        && (forall j | 0 <= j < 3 && attackAnimations[j] != attackAnimations[old(currentAttackAnimation)]
                       && attackAnimations[j] != attackAnimations[currentAttackAnimation] ::
              unchanged(attackAnimations[j]))
    }

    /**
     * One tick of the player. `angle` is the direction of the cursor in
     * degrees as `atan2` gives it; `now` is the clock. The parry, and
     * nothing else, touches the butters.
     */
    method Update(input: Input, dt: real, now: real, angle: real, steer: Steering, butters: seq<Butter>)
      requires Valid()
      modifies this, Anims(), set b | b in butters
      ensures Valid()
      ensures hp == old(hp) && maxHp == old(maxHp)
      ensures Ticked(input, dt, now, angle, steer)
      ensures forall b | b in butters :: b.pos == old(b.pos) && b.valid == old(b.valid)
      ensures
        var fires := !old(IsDead()) &&
          ParryFires(old(chargeTimer), old(attackAnimations[currentAttackAnimation].IsDone()),
                     input.mouseDown, input.mouseReleased, now);
        forall b | b in butters :: b.Parried(fires, weaponPos, weaponSize, input.mouse, steer)
    {
      if IsDead() {
        animationState := Dead;
        return;
      }
      LiveUpdate(input, dt, now, angle, steer, butters);
    }

    /** The tick of a living player: aim, move, attack, animate. */
    method LiveUpdate(input: Input, dt: real, now: real, angle: real, steer: Steering, butters: seq<Butter>)
      requires Valid() && !IsDead()
      modifies this`weaponPos, this`rotation, this`pos, this`animationState, this`chargeTimer,
               this`currentAttackAnimation, Anims(), set b | b in butters
      ensures Valid()
      ensures hp == old(hp) && maxHp == old(maxHp)
      // Weapon placement and movement, clamped to the arena.
      ensures
        && rotation == WeaponRotation(angle)
        && weaponPos == Sub(steer(old(GetCenter()), input.mouse, 40.0), Vec2(size.x / 2.0, size.y / 2.0))
        && pos == Vec2(ClampAxis(old(pos).x + MoveVelocity(input, dt).x, ARENA - size.x),
                       ClampAxis(old(pos).y + MoveVelocity(input, dt).y, ARENA - size.y))
        && animationState == (if MoveVelocity(input, dt) != Vec2(0.0, 0.0)
                              then WalkingFromDir(PlayerDir(rotation)) else IdleFromDir(PlayerDir(rotation)))
      // The weapon state machine, driven by whether the current weapon animation had finished.
      ensures
        (currentAttackAnimation, chargeTimer)
          == AttackStep(old(currentAttackAnimation), old(chargeTimer),
                        old(attackAnimations[currentAttackAnimation].IsDone()),
                        input.mouseDown, input.mouseReleased, now)
      // The animations: the body one of the state the tick started in and the current weapon one advance by dt.
      ensures
        var body := animations[old(animationState).Index().0];
        var rewound := animationState != old(animationState);
        var frame := if rewound then 0 else old(body.currentFrame);
        var counter := if rewound then 0.0 else old(body.frameTimeCounter);
        && body.currentFrame == NextFrame(frame, body.frames, body.looping, counter + dt > body.frameTime)
        && body.frameTimeCounter == FMod(counter + dt, body.frameTime)
      ensures
        var weapon := attackAnimations[currentAttackAnimation];
        && weapon.currentFrame == NextFrame(old(weapon.currentFrame), weapon.frames, weapon.looping,
                                            old(weapon.frameTimeCounter) + dt > weapon.frameTime)
        && weapon.frameTimeCounter == FMod(old(weapon.frameTimeCounter) + dt, weapon.frameTime)
      ensures currentAttackAnimation != old(currentAttackAnimation) ==>
        attackAnimations[old(currentAttackAnimation)].currentFrame == 0
        && attackAnimations[old(currentAttackAnimation)].frameTimeCounter == 0.0
      // No other animation changes.
      ensures forall a | a in Anims() && a != animations[old(animationState).Index().0]
                         && a != attackAnimations[old(currentAttackAnimation)]
                         && a != attackAnimations[currentAttackAnimation] :: unchanged(a)
      // The parry, and nothing else, touches the butters.
      ensures forall b | b in butters :: b.pos == old(b.pos) && b.valid == old(b.valid)
      ensures
        var fires :=
          ParryFires(old(chargeTimer), old(attackAnimations[currentAttackAnimation].IsDone()),
                     input.mouseDown, input.mouseReleased, now);
        forall b | b in butters ::
          if fires && !old(b.reflected) && RectRect(b.size, b.pos, weaponSize, weaponPos)
          then b.reflected && b.velocity == Sub(b.pos, steer(b.pos, input.mouse, 44.0))
          else b.reflected == old(b.reflected) && b.velocity == old(b.velocity)
    {
      var animationAtStart := animationState;
      AimAndMove(input, dt, angle, steer);
      AttackAndAnimate(input, dt, now, steer, butters, animationAtStart);
    }

    /** The first half of a living player's tick: the weapon is placed and turned, then the player moves and picks a sprite. */
    method AimAndMove(input: Input, dt: real, angle: real, steer: Steering)
      requires Valid()
      modifies this`weaponPos, this`rotation, this`pos, this`animationState
      ensures Valid()
      ensures
        && rotation == WeaponRotation(angle)
        && weaponPos == Sub(steer(old(GetCenter()), input.mouse, 40.0), Vec2(size.x / 2.0, size.y / 2.0))
        && pos == Vec2(ClampAxis(old(pos).x + MoveVelocity(input, dt).x, ARENA - size.x),
                       ClampAxis(old(pos).y + MoveVelocity(input, dt).y, ARENA - size.y))
        && animationState == (if MoveVelocity(input, dt) != Vec2(0.0, 0.0)
                              then WalkingFromDir(PlayerDir(rotation)) else IdleFromDir(PlayerDir(rotation)))
    {
      var mousePos := input.mouse;
      Aim(mousePos, angle, steer);

      var playerDir := PlayerDir(rotation);
      Move(input, dt, playerDir);
    }

    /**
     * The second half of a living player's tick: the weapon state machine
     * with its parry, then the animations, the body one being that of
     * `animationAtStart`, the state the tick started in.
     */
    method AttackAndAnimate(input: Input, dt: real, now: real, steer: Steering, butters: seq<Butter>,
                            animationAtStart: PlayerAnimationState)
      requires Valid()
      modifies this`chargeTimer, this`currentAttackAnimation, Anims(), set b | b in butters
      ensures Valid()
      ensures
        (currentAttackAnimation, chargeTimer)
          == AttackStep(old(currentAttackAnimation), old(chargeTimer),
                        old(attackAnimations[currentAttackAnimation].IsDone()),
                        input.mouseDown, input.mouseReleased, now)
      ensures
        var body := animations[animationAtStart.Index().0];
        var rewound := animationState != animationAtStart;
        var frame := if rewound then 0 else old(body.currentFrame);
        var counter := if rewound then 0.0 else old(body.frameTimeCounter);
        && body.currentFrame == NextFrame(frame, body.frames, body.looping, counter + dt > body.frameTime)
        && body.frameTimeCounter == FMod(counter + dt, body.frameTime)
      ensures
        var weapon := attackAnimations[currentAttackAnimation];
        && weapon.currentFrame == NextFrame(old(weapon.currentFrame), weapon.frames, weapon.looping,
                                            old(weapon.frameTimeCounter) + dt > weapon.frameTime)
        && weapon.frameTimeCounter == FMod(old(weapon.frameTimeCounter) + dt, weapon.frameTime)
      ensures currentAttackAnimation != old(currentAttackAnimation) ==>
        attackAnimations[old(currentAttackAnimation)].currentFrame == 0
        && attackAnimations[old(currentAttackAnimation)].frameTimeCounter == 0.0
      ensures forall a | a in Anims() && a != animations[animationAtStart.Index().0]
                         && a != attackAnimations[old(currentAttackAnimation)]
                         && a != attackAnimations[currentAttackAnimation] :: unchanged(a)
      ensures forall b | b in butters :: b.pos == old(b.pos) && b.valid == old(b.valid)
      ensures
        var fires :=
          ParryFires(old(chargeTimer), old(attackAnimations[currentAttackAnimation].IsDone()),
                     input.mouseDown, input.mouseReleased, now);
        forall b | b in butters ::
          if fires && !old(b.reflected) && RectRect(b.size, b.pos, weaponSize, weaponPos)
          then b.reflected && b.velocity == Sub(b.pos, steer(b.pos, input.mouse, 44.0))
          else b.reflected == old(b.reflected) && b.velocity == old(b.velocity)
    {
      var attackAnimationStart := currentAttackAnimation;
      Attack(input, now, steer, butters);
      AdvanceAnimations(animationAtStart, attackAnimationStart, dt);
    }

    /** Places the weapon 40 units from the centre towards the cursor and turns it to face the cursor. */
    method Aim(mousePos: Vec2, angle: real, steer: Steering)
      modifies this`weaponPos, this`rotation
      ensures weaponPos == Sub(steer(GetCenter(), mousePos, 40.0), Vec2(size.x / 2.0, size.y / 2.0))
      ensures rotation == WeaponRotation(angle)
    {
      weaponPos := steer(GetCenter(), mousePos, 40.0);
      weaponPos := Sub(weaponPos, Vec2(size.x / 2.0, size.y / 2.0));
      rotation := WeaponRotation(angle);
    }

    /** Picks the idle or walking sprite for `playerDir`, moves by the held keys and clamps to the arena. */
    method Move(input: Input, dt: real, playerDir: nat)
      requires playerDir < 4
      modifies this`pos, this`animationState
      ensures pos == Vec2(ClampAxis(old(pos).x + MoveVelocity(input, dt).x, ARENA - size.x),
                          ClampAxis(old(pos).y + MoveVelocity(input, dt).y, ARENA - size.y))
      ensures 0.0 <= pos.x <= ARENA - size.x && 0.0 <= pos.y <= ARENA - size.y
      ensures animationState == (if MoveVelocity(input, dt) != Vec2(0.0, 0.0)
                                 then WalkingFromDir(playerDir) else IdleFromDir(playerDir))
    {
      var movementFactor := 40.0 * dt;
      animationState := IdleFromDir(playerDir);

      var vel := Vec2(0.0, 0.0);
      if input.keyW {
        vel := vel.(y := vel.y - movementFactor);
      }
      if input.keyS {
        vel := vel.(y := vel.y + movementFactor);
      }
      if input.keyA {
        vel := vel.(x := vel.x - movementFactor);
      }
      if input.keyD {
        vel := vel.(x := vel.x + movementFactor);
      }
      assert vel == MoveVelocity(input, dt);

      if vel.x != 0.0 || vel.y != 0.0 {
        pos := Add(pos, vel);
        animationState := WalkingFromDir(playerDir);
      }

      if pos.x > ARENA - size.x {
        pos := pos.(x := ARENA - size.x);
      } else if pos.x < 0.0 {
        pos := pos.(x := 0.0);
      }

      if pos.y > ARENA - size.y {
        pos := pos.(y := ARENA - size.y);
      } else if pos.y < 0.0 {
        pos := pos.(y := 0.0);
      }
    }

    /** The weapon state machine for one tick, with the parry on a long enough release. */
    method Attack(input: Input, now: real, steer: Steering, butters: seq<Butter>)
      requires Valid()
      modifies this`chargeTimer, this`currentAttackAnimation, set b | b in butters
      ensures Valid()
      ensures (currentAttackAnimation, chargeTimer)
          == AttackStep(old(currentAttackAnimation), old(chargeTimer),
                        old(attackAnimations[currentAttackAnimation].IsDone()),
                        input.mouseDown, input.mouseReleased, now)
      ensures forall b | b in butters :: b.pos == old(b.pos) && b.valid == old(b.valid)
      ensures
        var fires := ParryFires(old(chargeTimer), old(attackAnimations[currentAttackAnimation].IsDone()),
                                input.mouseDown, input.mouseReleased, now);
        forall b | b in butters ::
          if fires && !old(b.reflected) && RectRect(b.size, b.pos, weaponSize, weaponPos)
          then b.reflected && b.velocity == Sub(b.pos, steer(b.pos, input.mouse, 44.0))
          else b.reflected == old(b.reflected) && b.velocity == old(b.velocity)
    {
      if input.mouseDown && attackAnimations[currentAttackAnimation].IsDone() {
        match chargeTimer {
          case Some(_) =>
          case None => chargeTimer := Some(now);
        }
        currentAttackAnimation := 1;
      } else if input.mouseReleased {
        match chargeTimer {
          case Some(time) =>
            var chargeTime := now - time;
            if chargeTime > 0.2 {
              ChargeAttack(chargeTime, butters, input.mouse, steer);
            }
          case None =>
        }
        chargeTimer := None;
        currentAttackAnimation := 2;
      } else if attackAnimations[currentAttackAnimation].IsDone() {
        currentAttackAnimation := 0;
      }
    }

    /**
     * Rewinds the body and weapon animations that were left this tick, then
     * advances the body animation of the state the tick started in and the
     * current weapon animation.
     */
    method AdvanceAnimations(animationAtStart: PlayerAnimationState, attackAnimationStart: nat, dt: real)
      requires Valid() && attackAnimationStart < 3
      modifies animations[animationAtStart.Index().0], attackAnimations[attackAnimationStart],
               attackAnimations[currentAttackAnimation]
      ensures Valid()
      // The body animation of the state the tick started in, rewound first if the state changed, advances by dt.
      ensures
        var body := animations[animationAtStart.Index().0];
        var rewound := animationState != animationAtStart;
        var frame := if rewound then 0 else old(body.currentFrame);
        var counter := if rewound then 0.0 else old(body.frameTimeCounter);
        && body.currentFrame == NextFrame(frame, body.frames, body.looping, counter + dt > body.frameTime)
        && body.frameTimeCounter == FMod(counter + dt, body.frameTime)
      // The current weapon animation advances by dt.
      ensures
        var weapon := attackAnimations[currentAttackAnimation];
        && weapon.currentFrame == NextFrame(old(weapon.currentFrame), weapon.frames, weapon.looping,
                                            old(weapon.frameTimeCounter) + dt > weapon.frameTime)
        && weapon.frameTimeCounter == FMod(old(weapon.frameTimeCounter) + dt, weapon.frameTime)
      // A weapon animation left this tick is rewound.
      ensures attackAnimationStart != currentAttackAnimation ==>
        attackAnimations[attackAnimationStart].currentFrame == 0
        && attackAnimations[attackAnimationStart].frameTimeCounter == 0.0
    {
      AdvanceBody(animationAtStart, dt);
      AdvanceWeapon(attackAnimationStart, dt);
    }

    /** The body half of `AdvanceAnimations`: rewinds the animation of `from` if the state changed, then advances it. */
    method AdvanceBody(from: PlayerAnimationState, dt: real)
      requires Valid()
      modifies animations[from.Index().0]
      ensures Valid()
      ensures
        var body := animations[from.Index().0];
        var rewound := animationState != from;
        var frame := if rewound then 0 else old(body.currentFrame);
        var counter := if rewound then 0.0 else old(body.frameTimeCounter);
        && body.currentFrame == NextFrame(frame, body.frames, body.looping, counter + dt > body.frameTime)
        && body.frameTimeCounter == FMod(counter + dt, body.frameTime)
    {
      var body := animations[from.Index().0];
      if animationState != from {
        body.Reset();
      }
      body.Update(dt);
    }

    /** The weapon half of `AdvanceAnimations`: rewinds the weapon animation `from` if it was left, then advances the current one. */
    method AdvanceWeapon(from: nat, dt: real)
      requires Valid() && from < 3
      modifies attackAnimations[from], attackAnimations[currentAttackAnimation]
      ensures Valid()
      ensures
        var weapon := attackAnimations[currentAttackAnimation];
        && weapon.currentFrame == NextFrame(old(weapon.currentFrame), weapon.frames, weapon.looping,
                                            old(weapon.frameTimeCounter) + dt > weapon.frameTime)
        && weapon.frameTimeCounter == FMod(old(weapon.frameTimeCounter) + dt, weapon.frameTime)
      ensures from != currentAttackAnimation ==>
        attackAnimations[from].currentFrame == 0 && attackAnimations[from].frameTimeCounter == 0.0
    {
      if from != currentAttackAnimation {
        attackAnimations[from].Reset();
      }
      attackAnimations[currentAttackAnimation].Update(dt);
    }
  }

  // ---------------------------------------------------------------------------
  // Butter
  // ---------------------------------------------------------------------------

  /** Where a butter at `from` with (negated) velocity `v` is after `dt` seconds. */
  function Drift(from: Vec2, v: Vec2, dt: real): Vec2 {
    Vec2(from.x - v.x * dt, from.y - v.y * dt)
  }

  class Butter {
    /** The displacement per second, stored negated: `update` subtracts it. */
    var velocity: Vec2
    var pos: Vec2
    const size: Vec2 := Vec2(15.0, 15.0)
    var reflected: bool
    var valid: bool

    /** A fresh, hostile butter at `startingPos`, headed for `target` at 44 units per second. */
    constructor (startingPos: Vec2, target: Vec2, steer: Steering)
      ensures pos == startingPos && velocity == Sub(startingPos, steer(startingPos, target, 44.0))
      ensures !reflected && valid
    {
      var moveTowards := steer(startingPos, target, 44.0);
      var diff := Sub(startingPos, moveTowards);
      pos := startingPos;
      velocity := diff;
      reflected := false;
      valid := true;
    }

    /** Where one `update` of `dt` seconds takes the butter. */
    function Moved(dt: real): Vec2
      reads this
    {
      Drift(pos, velocity, dt)
    }

    /** Whether one `update` of `dt` seconds makes this butter hit `player`. */
    predicate HitsPlayer(dt: real, player: Player)
      reads this, player`pos
    {
      !reflected && RectRect(size, Moved(dt), player.size, player.pos)
    }

    /** Whether the butter, still hostile, overlaps `player`'s rectangle where it is now. */
    predicate Touches(player: Player)
      reads this, player`pos
    {
      !reflected && RectRect(size, pos, player.size, player.pos)
    }

    /**
     * Between the old state and this one, the butter flew `dt` seconds at
     * its present velocity, and it is spent exactly when it was spent
     * already or now touches `player` while hostile.
     */
    twostate predicate Flew(dt: real, player: Player)
      reads this, player`pos
    {
      && pos == Drift(old(pos), velocity, dt)
      && valid == (old(valid) && !Touches(player))
    }

    /** Between the old state and this one, the butter has taken one `update` of `dt` seconds against `player`. */
    twostate predicate Turned(dt: real, player: Player)
      reads this
    {
      && pos == old(Moved(dt))
      && valid == (old(valid) && !old(HitsPlayer(dt, player)))
      && velocity == old(velocity) && reflected == old(reflected)
    }

    /**
     * Between the old state and this one, the butter met the parry of a
     * weapon rectangle at `weaponPos`, swung if `fires`: a hostile butter it
     * overlapped is sent towards `mouse` and becomes the player's; any other
     * keeps its side and velocity.
     */
    twostate predicate Parried(fires: bool, weaponPos: Vec2, weaponSize: Vec2, mouse: Vec2, steer: Steering)
      reads this`reflected, this`velocity
    {
      if fires && !old(reflected) && RectRect(size, old(pos), weaponSize, weaponPos)
      then reflected && velocity == Sub(old(pos), steer(old(pos), mouse, 44.0))
      else reflected == old(reflected) && velocity == old(velocity)
    }

    /**
     * Moves by one tick of velocity; a butter that is not reflected and then
     * touches the player's rectangle costs the player one hit point and is
     * spent.
     */
    method Update(dt: real, player: Player)
      modifies this, player`hp
      ensures pos == old(Moved(dt))
      ensures velocity == old(velocity) && reflected == old(reflected)
      ensures old(HitsPlayer(dt, player)) ==> !valid && player.hp == HitHp(old(player.hp))
      ensures !old(HitsPlayer(dt, player)) ==> valid == old(valid) && player.hp == old(player.hp)
      ensures old(player.Valid()) ==> player.Valid()
    {
      var newX := pos.x - velocity.x * dt;
      var newY := pos.y - velocity.y * dt;

      pos := Vec2(newX, newY);

      if reflected {
      } else {
        var hit := RectRect(size, pos, player.size, player.pos);
        if hit {
          player.OnHit();
          valid := false;
        }
      }
    }

    /** The parry: the butter turns towards `newTarget` and from now on is the player's. */
    method ChangeTarget(newTarget: Vec2, steer: Steering)
      modifies this
      ensures reflected
      ensures velocity == Sub(pos, steer(pos, newTarget, 44.0))
      ensures pos == old(pos) && valid == old(valid)
    {
      var moveTowards := steer(pos, newTarget, 44.0);
      var diff := Sub(pos, moveTowards);
      velocity := diff;
      reflected := true;
    }

    function IsReflected(): (r: bool)
      reads this
      ensures r == reflected
    {
      reflected
    }
  }

  // ---------------------------------------------------------------------------
  // Enemy
  // ---------------------------------------------------------------------------

  class Enemy {
    var pos: Vec2
    const size: Vec2 := Vec2(50.0, 50.0)
    /** The instant of the last shot. */
    var shotCooldown: real
    /** Whether the enemy is still in play; cleared by steps this model does not define. */
    var valid: bool

    constructor (pos: Vec2, now: real)
      ensures this.pos == pos && shotCooldown == now && valid
    {
      this.pos := pos;
      shotCooldown := now;
      valid := true;
    }

    /**
     * Fires one butter at the player's centre once more than a second has
     * passed since the last shot, and restarts the cooldown.
     */
    method Update(dt: real, now: real, player: Player, butters: seq<Butter>, steer: Steering)
      returns (r: seq<Butter>)
      modifies this`shotCooldown
      ensures now - old(shotCooldown) > 1.0 ==>
        && |r| == |butters| + 1 && r[..|butters|] == butters
        && fresh(r[|butters|]) && r[|butters|].pos == pos
        && !r[|butters|].reflected && r[|butters|].valid
        && r[|butters|].velocity == Sub(pos, steer(pos, player.GetCenter(), 44.0))
        && shotCooldown == now
      ensures !(now - old(shotCooldown) > 1.0) ==> r == butters && shotCooldown == old(shotCooldown)
    {
      r := butters;
      if now - shotCooldown > 1.0 {
        var b := new Butter(pos, player.GetCenter(), steer);
        r := r + [b];
        shotCooldown := now;
      }
    }
  }
}
