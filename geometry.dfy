/** The play field and the numeric helpers the game rules share
    (tank_game.py:23-27 and the bounds tests of 180-181, 203-204, 287). */
module Geometry {

  const Width: real := 1280.0
  const Height: real := 720.0
  /** Distance a tank keeps from the field's edges. */
  const Margin: real := 30.0
  /** `math.hypot(dx, dy) < 30` is a hit; over reals that is dx*dx + dy*dy < 900. */
  const HitRadiusSq: real := 900.0
  /** Bots farther than 400 units (squared: 160000) turn to `atan2(dy, dx) + 90` degrees and drive along that angle. */
  const ChaseRangeSq: real := 160000.0

  /** `max(lo, min(hi, v))` */
  function Clamp(v: real, lo: real, hi: real): (r: real)
    requires lo <= hi
    ensures lo <= r <= hi
    ensures lo <= v <= hi ==> r == v
    ensures v < lo ==> r == lo
    ensures hi < v ==> r == hi
  {
    if v < lo then lo else if hi < v then hi else v
  }

  function SqDist(x1: real, y1: real, x2: real, y2: real): real
  {
    (x1 - x2) * (x1 - x2) + (y1 - y2) * (y1 - y2)
  }

  /** `math.hypot(x1 - x2, y1 - y2) < 30` */
  predicate Near(x1: real, y1: real, x2: real, y2: real)
  {
    SqDist(x1, y1, x2, y2) < HitRadiusSq
  }

  /** A point inside the 1280x720 field, edges included: the bullet step drops
      a bullet exactly when `x < 0 or x > WIDTH or y < 0 or y > HEIGHT`. */
  predicate InField(x: real, y: real)
  {
    0.0 <= x <= Width && 0.0 <= y <= Height
  }

  /** The trigonometry the game asks of Python's math module, in degrees:
      `cos(radians(a))`, `sin(radians(a))` and `degrees(atan2(y, x))`.
      The model leaves these functions uninterpreted. */
  datatype Trig = Trig(cosDeg: real -> real, sinDeg: real -> real, atan2Deg: (real, real) -> real)
}
