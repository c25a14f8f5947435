/** The engine's two-component vector, used for positions, sizes and velocities. */
module Vectors {

  datatype Vec2 = Vec2(x: real, y: real)

  function Add(a: Vec2, b: Vec2): Vec2 {
    Vec2(a.x + b.x, a.y + b.y)
  }

  function Sub(a: Vec2, b: Vec2): Vec2 {
    Vec2(a.x - b.x, a.y - b.y)
  }

  /** Side length of the square arena, in logical units. */
  const ARENA: real := 800.0

  /**
   * The steering helper `move_towards(current, target, max_distance)` of
   * src/main.rs: the point `max_distance` along the line from `current`
   * towards `target`. It is built on a square root and a division, so the
   * model receives it as a parameter instead of defining it.
   */
  type Steering = (Vec2, Vec2, real) -> Vec2
}
