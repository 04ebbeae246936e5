/** Geometry value types shared by every widget node. */
module Coord {

  /** An unsigned 16-bit terminal coordinate. */
  newtype u16 = x: int | 0 <= x < 0x1_0000

  /** A logical rectangle in editor coordinate space, signed and unbounded, given by its two corners. */
  datatype IRect = IRect(minX: int, minY: int, maxX: int, maxY: int)

  /** An actual rectangle, clipped to the terminal grid. */
  datatype U16Rect = U16Rect(minX: u16, minY: u16, maxX: u16, maxY: u16)
}
