/** The CoreGraphics and Vision value types the detector computes with.
    CGFloat arithmetic is modelled over exact reals. */
module Geometry {

  /** A CGSize. */
  datatype Size = Size(width: real, height: real)

  /** A CGRect given by its origin and its size. */
  datatype Rect = Rect(x: real, y: real, width: real, height: real)

  predicate PositiveSize(s: Size) {
    s.width > 0.0 && s.height > 0.0
  }

  /** Width over height. */
  function Aspect(s: Size): real
    requires s.height != 0.0
  {
    s.width / s.height
  }

  /** Swift's `Int(_:)` on a floating-point value: the fractional part is
      discarded, rounding toward zero on both sides of the origin. */
  function Trunc(v: real): (n: int)
    ensures 0.0 <= v ==> 0 <= n && n as real <= v < n as real + 1.0
    ensures v < 0.0 ==> n <= 0 && n as real - 1.0 < v <= n as real
  {
    if v >= 0.0 then v.Floor else -((-v).Floor)
  }

  /** Vision's `VNImageRectForNormalizedRect`: projects a rect in normalised
      coordinates onto an image of `w` by `h` pixels. */
  function ImageRectForNormalizedRect(r: Rect, w: int, h: int): Rect {
    Rect(r.x * w as real, r.y * h as real, r.width * w as real, r.height * h as real)
  }
}
