/** The part of the rectangle type of common/rect.h that the texture layer uses:
    four int16 edges, with right and bottom exclusive. */
module Geometry {

  /** A C++ `int16`. */
  type Int16 = x: int | -0x8000 <= x < 0x8000

  predicate FitsInt16(x: int) {
    -0x8000 <= x < 0x8000
  }

  /** Conversion of an `int` to `int16`: two's-complement truncation to 16 bits. */
  function ToInt16(x: int): (r: Int16)
    ensures FitsInt16(x) <==> r == x
    ensures x - r == (x + 0x8000) / 0x10000 * 0x10000
  {
    (x + 0x8000) % 0x10000 - 0x8000
  }

  datatype Rect = Rect(left: Int16, top: Int16, right: Int16, bottom: Int16)

  /** `Rect(w, h)`: the rectangle with its top-left corner at the origin. */
  function RectOfSize(w: Int16, h: Int16): (r: Rect)
    ensures r.left == 0 && r.top == 0
    ensures Width(r) == w && Height(r) == h
  {
    Rect(0, 0, w, h)
  }

  /** `isEmpty()`: no pixel lies inside. */
  predicate IsEmpty(r: Rect) {
    r.left >= r.right || r.top >= r.bottom
  }

  /** `width()`: the difference of the edges, stored back into an int16. */
  function Width(r: Rect): Int16 {
    ToInt16(r.right - r.left)
  }

  /** `height()`, likewise. */
  function Height(r: Rect): Int16 {
    ToInt16(r.bottom - r.top)
  }

  /** Every edge of `inner` lies on or inside the matching edge of `outer`. */
  predicate Encloses(outer: Rect, inner: Rect) {
    outer.left <= inner.left && inner.right <= outer.right &&
    outer.top <= inner.top && inner.bottom <= outer.bottom
  }

  function Min(a: Int16, b: Int16): Int16 {
    if a <= b then a else b
  }

  function Max(a: Int16, b: Int16): Int16 {
    if a >= b then a else b
  }

  /** `a.extend(b)`: the smallest rectangle whose edges enclose both. */
  function Extend(a: Rect, b: Rect): (e: Rect)
    ensures Encloses(e, a) && Encloses(e, b)
    ensures forall c :: Encloses(c, a) && Encloses(c, b) ==> Encloses(c, e)
    ensures !IsEmpty(a) ==> !IsEmpty(e)
  {
    Rect(Min(a.left, b.left), Min(a.top, b.top), Max(a.right, b.right), Max(a.bottom, b.bottom))
  }

  lemma EnclosesTransitive(a: Rect, b: Rect, c: Rect)
    requires Encloses(a, b) && Encloses(b, c)
    ensures Encloses(a, c)
  {
  }
}
