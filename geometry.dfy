/** Vectors, integer points and rectangles shared by every entity of the game,
    standing for the MonoGame `Vector2`, `Point` and `Rectangle` value types.
    Single-precision floats are modelled as reals. */
module Geometry {

  /** A two-component vector (MonoGame `Vector2`). */
  datatype Vector2 = Vector2(x: real, y: real) {
    function Add(v: Vector2): Vector2 { Vector2(x + v.x, y + v.y) }
    function Scale(k: real): Vector2 { Vector2(x * k, y * k) }
  }

  const Zero := Vector2(0.0, 0.0)

  /** An integer pair (MonoGame `Point`): a location or a size. */
  datatype Point = Point(x: int, y: int)

  /** An axis-aligned integer rectangle: `location` is its top-left corner,
      `size` its width and height. */
  datatype Rectangle = Rectangle(location: Point, size: Point) {
    function Left(): int { location.x }
    function Right(): int { location.x + size.x }
    function Top(): int { location.y }
    function Bottom(): int { location.y + size.y }

    /** The rectangle covers the half-open area [Left, Right) x [Top, Bottom). */
    predicate Contains(p: Point) {
      Left() <= p.x < Right() && Top() <= p.y < Bottom()
    }
  }

  /** The size of the game window's client area (`GameWindow.ClientBounds`). */
  datatype Window = Window(width: int, height: int)

  /** Conversion of a float to an int by a C# cast: truncation toward zero. */
  function Truncate(r: real): (n: int)
    ensures 0.0 <= r ==> n as real <= r < n as real + 1.0
    ensures r < 0.0 ==> n as real - 1.0 < r <= n as real
  {
    if r >= 0.0 then r.Floor else -((-r).Floor)
  }

  /** `Vector2.ToPoint`, assumed to truncate each component. */
  function ToPoint(v: Vector2): Point {
    Point(Truncate(v.x), Truncate(v.y))
  }

  /** `Rectangle.Intersects`, assumed to be strict overlap on both axes:
      rectangles that only touch along an edge do not intersect. */
  predicate Intersects(a: Rectangle, b: Rectangle) {
    b.Left() < a.Right() && a.Left() < b.Right() && b.Top() < a.Bottom() && a.Top() < b.Bottom()
  }

  function Max(a: int, b: int): int { if a < b then b else a }

  /** For rectangles of positive size, intersecting means sharing a point. */
  lemma IntersectsIffCommonPoint(a: Rectangle, b: Rectangle)
    requires a.size.x > 0 && a.size.y > 0 && b.size.x > 0 && b.size.y > 0
    ensures Intersects(a, b) <==> exists p :: a.Contains(p) && b.Contains(p)
  {
    if Intersects(a, b) {
      var p := Point(Max(a.Left(), b.Left()), Max(a.Top(), b.Top()));
      assert a.Contains(p) && b.Contains(p);
    }
  }

  lemma IntersectsSymmetric(a: Rectangle, b: Rectangle)
    ensures Intersects(a, b) <==> Intersects(b, a)
  {
  }
}
