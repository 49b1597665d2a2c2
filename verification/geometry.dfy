/** Bounding boxes and pico2d's `clamp`. */
module Geometry {

  /** An axis-aligned box as returned by `get_bb`: (left, bottom, right, top). */
  datatype Box = Box(left: real, bottom: real, right: real, top: real) {

    function Width(): real { right - left }

    function Height(): real { top - bottom }

    /** True if the box's centre is (x, y). */
    predicate CentredOn(x: real, y: real) {
      left + right == 2.0 * x && bottom + top == 2.0 * y
    }
  }

  /** pico2d's `clamp(lo, v, hi)`. Its source is not part of this model; it is
      taken to be `max(lo, min(v, hi))`, so when `hi < lo` the lower bound wins. */
  function Clamp(lo: real, v: real, hi: real): (r: real)
    ensures lo <= hi ==> lo <= r <= hi
    ensures lo <= v <= hi ==> r == v
    ensures v < lo ==> r == lo
    ensures lo <= hi < v ==> r == hi
    ensures hi < lo ==> r == lo
  {
    var m := if v < hi then v else hi;
    if m < lo then lo else m
  }

  /** Clamping a value already clamped into the same range changes nothing. */
  lemma ClampIdempotent(lo: real, v: real, hi: real)
    ensures Clamp(lo, Clamp(lo, v, hi), hi) == Clamp(lo, v, hi)
  {
  }
}
