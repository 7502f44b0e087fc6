/** Axis-aligned rectangles and the overlap test with a shrinking margin that the engines
    use for hits (`checkCollision` in the runners, the inline range tests elsewhere). */
module Geometry {

  /** A rectangle: top-left corner and size, in canvas pixels. */
  datatype Box = Box(x: real, y: real, w: real, h: real)

  /** The two rectangles overlap once each is shrunk by `m` on every side
      (`a.x + m < b.x + b.w - m && a.x + a.w - m > b.x + m && ...`). */
  predicate Overlap(a: Box, b: Box, m: real)
  {
    && a.x + m < b.x + b.w - m
    && a.x + a.w - m > b.x + m
    && a.y + m < b.y + b.h - m
    && a.y + a.h - m > b.y + m
  }

  /** The test does not depend on which rectangle is passed first. */
  lemma OverlapSymmetric(a: Box, b: Box, m: real)
    ensures Overlap(a, b, m) <==> Overlap(b, a, m)
  {}

  /** A larger margin only removes hits. */
  lemma OverlapMarginMonotone(a: Box, b: Box, m1: real, m2: real)
    requires m1 <= m2 && Overlap(a, b, m2)
    ensures Overlap(a, b, m1)
  {}
}
