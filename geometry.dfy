/** Board constants and the axis-aligned bounds that the game compares. */
module Geometry {
  /** Width of the game board in pixels (origin top-left, +x to the right). */
  const WIDTH: int := 400
  /** Height of the game board in pixels (+y downwards). */
  const HEIGHT: int := 600

  /** A closed axis-aligned rectangle [minX, maxX] x [minY, maxY] in board coordinates. */
  datatype Box = Box(minX: real, minY: real, maxX: real, maxY: real)

  /** A box with a maximum below its minimum on some axis holds no point. */
  predicate IsEmpty(b: Box)
  {
    b.maxX < b.minX || b.maxY < b.minY
  }

  /** The bounds-overlap test the game relies on: neither box is empty and their
      closed extents overlap on both axes, so boxes that only touch along an edge
      intersect. */
  predicate Intersects(a: Box, b: Box)
  {
    !IsEmpty(a) && !IsEmpty(b)
    && a.minX <= b.maxX && b.minX <= a.maxX && a.minY <= b.maxY && b.minY <= a.maxY
  }

  /** The box lies within the board [0, WIDTH] x [0, HEIGHT]. */
  predicate OnBoard(b: Box)
  {
    0.0 <= b.minX && b.maxX <= WIDTH as real && 0.0 <= b.minY && b.maxY <= HEIGHT as real
  }
}
