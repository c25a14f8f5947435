/**
 * The sprite-sheet frame counter `Anmiation`: which frame is shown and how
 * much time has accumulated towards the next one. The sprite sheet and its
 * drawing are not modelled.
 */
module Animation {

  /**
   * Rust's `%` on `f32`: the remainder of `x` by `y` that has the sign of `x`
   * (truncating division). Rounding of `f32` is not modelled.
   */
  function FMod(x: real, y: real): (r: real)
    requires y > 0.0
    ensures 0.0 <= x ==> 0.0 <= r < y
    ensures x < 0.0 ==> -y < r <= 0.0
    ensures -y < x < y ==> r == x
    ensures y <= x < y + y ==> r == x - y
  {
    if x >= 0.0 then Rem(x, y) else -Rem(-x, y)
  }

  /** `FMod` is congruent to `x` modulo `y`: what it takes away is a whole number of `y`s, the quotient truncated toward zero. */
  lemma FModQuotient(x: real, y: real)
    requires y > 0.0
    ensures var q := if x >= 0.0 then (x / y).Floor else -((-x) / y).Floor;
            x - FMod(x, y) == q as real * y
  {
  }

  /** The remainder of a non-negative `x` by `y`, through the floor of the quotient. */
  function Rem(x: real, y: real): (r: real)
    requires x >= 0.0 && y > 0.0
    ensures 0.0 <= r < y
    ensures x < y ==> r == x
    ensures y <= x < y + y ==> r == x - y
  {
    var q := (x / y).Floor as real;
    FloorBracket(x, y, x / y, q);
    x - y * q
  }

  /** `q`, the floor of x / y, is the number of whole `y`s in `x`. */
  lemma FloorBracket(x: real, y: real, z: real, q: real)
    requires x >= 0.0 && y > 0.0 && z == x / y && q == z.Floor as real
    ensures y * q <= x < y * q + y
    ensures x < y ==> q == 0.0
    ensures y <= x < y + y ==> q == 1.0
  {
    assert y * z == x;
    Bracket(x, y, z, q);
    if x < y {
      QuotientBounds(x, y, z, 0.0);
    }
    if y <= x < y + y {
      assert y * 1.0 == y;
      QuotientBounds(x, y, z, 1.0);
    }
  }

  /** Scaling `q <= z < q + 1` by a positive `y`. */
  lemma Bracket(x: real, y: real, z: real, q: real)
    requires y > 0.0 && y * z == x && q <= z < q + 1.0
    ensures y * q <= x < y * q + y
  {
    ScaleBelow(y, q, z);
    var q1 := q + 1.0;
    assert z < q1;
    ScaleBelow(y, z, q1);
    assert y * z < y * q1;
    assert x < y * q1;
    assert y * q1 == y * q + y;
  }

  /** If `x = y * z` lies in [k * y, (k + 1) * y) then `z` lies in [k, k + 1). */
  lemma QuotientBounds(x: real, y: real, z: real, k: real)
    requires y > 0.0 && y * z == x && y * k <= x < y * k + y
    ensures k <= z < k + 1.0
  {
    var k1 := k + 1.0;
    assert y * k1 == y * k + y;
    if z < k {
      ScaleBelow(y, z, k);
      assert false;
    }
    if z >= k1 {
      ScaleBelow(y, k1, z);
      assert false;
    }
  }

  /** Multiplying by a positive factor keeps the order of two reals. */
  lemma ScaleBelow(y: real, a: real, b: real)
    requires y > 0.0
    ensures a <= b ==> y * a <= y * b
    ensures a < b ==> y * a < y * b
  {
    if a < b {
      assert y * b - y * a == y * (b - a);
    }
  }

  /**
   * The frame shown after one `update`, given whether the accumulated time
   * exceeded `frame_time`: a looping animation wraps to frame 0, a
   * non-looping one stops on its last frame.
   */
  function NextFrame(frame: nat, frames: nat, looping: bool, elapsed: bool): (r: nat)
    requires frame < frames
    ensures r < frames
    ensures !elapsed ==> r == frame
    ensures elapsed && looping ==> r == if frame + 1 < frames then frame + 1 else 0
    ensures !looping ==> frame <= r <= frame + 1
    ensures !looping && frame == frames - 1 ==> r == frame
  {
    if !elapsed then frame
    else if looping then (frame + 1) % frames
    else if frame < frames - 1 then frame + 1
    else frame
  }

  /** The frame shown after `k` updates that each found the frame time elapsed. */
  function Advance(frame: nat, frames: nat, looping: bool, k: nat): (r: nat)
    requires frame < frames
    ensures r < frames
  {
    if k == 0 then frame else NextFrame(Advance(frame, frames, looping, k - 1), frames, looping, true)
  }

  /**
   * A looping animation cycles through its frames: `k` advances (at most one
   * full cycle) move it `k` frames on, wrapping past the last frame to 0.
   */
  lemma {:induction false} LoopingCycles(frame: nat, frames: nat, k: nat)
    requires frame < frames && k <= frames
    ensures Advance(frame, frames, true, k) == if frame + k < frames then frame + k else frame + k - frames
  {
    if k > 0 {
      LoopingCycles(frame, frames, k - 1);
    }
  }

  /** After exactly `frames` advances a looping animation is back on the frame it started from. */
  lemma LoopingPeriod(frame: nat, frames: nat)
    requires frame < frames
    ensures Advance(frame, frames, true, frames) == frame
  {
    LoopingCycles(frame, frames, frames);
  }

  function Min(a: int, b: int): int {
    if a <= b then a else b
  }

  /** A non-looping animation plays forward and then holds its last frame. */
  lemma {:induction false} NonLoopingSaturates(frame: nat, frames: nat, k: nat)
    requires frame < frames
    ensures Advance(frame, frames, false, k) == Min(frame + k, frames - 1)
  {
    if k > 0 {
      NonLoopingSaturates(frame, frames, k - 1);
    }
  }

  class Animation {
    const frames: nat
    const frameTime: real
    const looping: bool
    var currentFrame: nat
    var frameTimeCounter: real

    ghost predicate Valid()
      reads this
    {
      frames >= 1 && currentFrame < frames && frameTime > 0.0
    }

    /** `Anmiation::new` without the texture: it starts on frame 0 with nothing accumulated. */
    constructor (frames: nat, frameTime: real, looping: bool)
      requires frames >= 1 && frameTime > 0.0
      ensures Valid()
      ensures this.frames == frames && this.frameTime == frameTime && this.looping == looping
      ensures currentFrame == 0 && frameTimeCounter == 0.0
    {
      this.frames := frames;
      this.frameTime := frameTime;
      this.looping := looping;
      currentFrame := 0;
      frameTimeCounter := 0.0;
    }

    /**
     * The last frame of a non-looping animation has been reached: exactly
     * the animations that one more elapsed frame time would leave where they are.
     */
    function IsDone(): (r: bool)
      reads this
      ensures frames >= 1 && currentFrame < frames ==>
        (r <==> !looping && NextFrame(currentFrame, frames, looping, true) == currentFrame)
    {
      !looping && currentFrame == frames - 1
    }

    method Update(dt: real)
      requires Valid()
      modifies this
      ensures Valid()
      ensures currentFrame == NextFrame(old(currentFrame), frames, looping, old(frameTimeCounter) + dt > frameTime)
      ensures frameTimeCounter == FMod(old(frameTimeCounter) + dt, frameTime)
      ensures old(IsDone()) ==> IsDone() && currentFrame == old(currentFrame)
      ensures looping ==> !IsDone()
    {
      frameTimeCounter := frameTimeCounter + dt;

      if frameTimeCounter > frameTime {
        if looping {
          currentFrame := (currentFrame + 1) % frames;
        } else if currentFrame < frames - 1 {
          currentFrame := currentFrame + 1;
        }
      }

      frameTimeCounter := FMod(frameTimeCounter, frameTime);
    }

    method Reset()
      modifies this
      ensures currentFrame == 0 && frameTimeCounter == 0.0
      ensures old(Valid()) ==> Valid()
    {
      currentFrame := 0;
      frameTimeCounter := 0.0;
    }
  }
}
