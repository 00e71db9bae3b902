/** Shapes shared by the game screens: an optional value, a screen point,
    the box a browser reports for a rendered element, and the few numeric
    helpers (`Math.min`, `Math.max`, `Math.abs`) the screens use. */
module Common {

  /** A value that may be absent (`null` / `undefined` in the screens). */
  datatype Option<T> = None | Some(value: T)

  /** A screen position in pixels. */
  datatype Point = Point(x: real, y: real)

  /** An element's measured box in pixels, as `getBoundingClientRect` reports it. */
  datatype Rect = Rect(left: real, top: real, width: real, height: real)
  {
    function CenterX(): real { left + width / 2.0 }
    function CenterY(): real { top + height / 2.0 }
  }

  function Abs(x: real): (r: real)
    ensures r >= 0.0 && (r == x || r == -x)
  {
    if x < 0.0 then -x else x
  }

  function Min(a: real, b: real): (r: real)
    ensures r <= a && r <= b && (r == a || r == b)
  {
    if a <= b then a else b
  }

  function Max(a: real, b: real): (r: real)
    ensures r >= a && r >= b && (r == a || r == b)
  {
    if a >= b then a else b
  }

  /** `distance` is the Euclidean length of (dx, dy): the value `Math.sqrt`
      would return, characterised without a square root. */
  predicate IsLength(distance: real, dx: real, dy: real)
  {
    distance >= 0.0 && distance * distance == dx * dx + dy * dy
  }

  /** For non-negative reals, comparing squares compares the numbers. */
  lemma SquaresOrdered(a: real, b: real)
    requires 0.0 <= a && 0.0 <= b && a * a <= b * b
    ensures a <= b
  {
    assert (a - b) * (a + b) == a * a - b * b;
    if a + b > 0.0 {
      assert (a - b) * (a + b) <= 0.0;
    }
  }

  /** One coordinate of a vector is never longer than the vector. */
  lemma CoordinateWithinLength(distance: real, dx: real, dy: real)
    requires IsLength(distance, dx, dy)
    ensures Abs(dx) <= distance && Abs(dy) <= distance
  {
    assert Abs(dy) * Abs(dy) == dy * dy;
    assert Abs(dx) * Abs(dx) == dx * dx;
    assert dx * dx >= 0.0 && dy * dy >= 0.0;
    SquaresOrdered(Abs(dy), distance);
    SquaresOrdered(Abs(dx), distance);
  }

  /** Dividing by a positive number keeps the order of the dividends. */
  lemma DivMonotone(a: real, b: real, c: real)
    requires a <= b && 0.0 < c
    ensures a / c <= b / c
  {
  }

  /** A non-negative number over a positive one is non-negative, and zero
      only for a zero dividend. */
  lemma DivNonnegative(a: real, b: real)
    requires 0.0 <= a && 0.0 < b
    ensures a / b >= 0.0 && (a / b == 0.0 <==> a == 0.0)
  {
  }

  /** A number over a positive number no larger than it is at least one. */
  lemma DivAtLeastOne(a: real, b: real)
    requires 0.0 < b
    ensures a >= b ==> a / b >= 1.0
  {
  }
}
