/**
 * Two-dimensional vectors and axis-aligned boxes, the value types every
 * entity of the simulation is built on.
 *
 * The arithmetic (add, subtract, scale) is written out; the operations that
 * need a square root (distance, unit, direction) and the box overlap test are
 * supplied by the caller as an `Oracles` value, since their definitions are
 * not part of this model.
 */
module Geometry {

  /** An immutable 2D vector. */
  datatype Vector = Vector(x: real, y: real)

  function Add(a: Vector, b: Vector): Vector
  {
    Vector(a.x + b.x, a.y + b.y)
  }

  function Sub(a: Vector, b: Vector): Vector
  {
    Vector(a.x - b.x, a.y - b.y)
  }

  /** Multiplication by a scalar. */
  function Scale(a: Vector, s: real): Vector
  {
    Vector(a.x * s, a.y * s)
  }

  /** Component-wise multiplication. */
  function Mul(a: Vector, b: Vector): Vector
  {
    Vector(a.x * b.x, a.y * b.y)
  }

  const Origin := Vector(0.0, 0.0)

  /** An axis-aligned box: its top-left corner and its extent. */
  datatype Box = Box(pos: Vector, size: Vector)

  /**
   * The collaborators whose definitions are outside this model: Euclidean
   * distance, the unit vector of a difference, the unit direction from one
   * point to another, and the overlap test of two boxes.
   */
  datatype Oracles = Oracles(
    distance: (Vector, Vector) -> real,
    unit: Vector -> Vector,
    direction: (Vector, Vector) -> Vector,
    collide: (Box, Box) -> bool)
}
