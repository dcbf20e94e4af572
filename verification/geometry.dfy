/** Value types of the geometry library and their Direct2D counterparts
    (src/utility.rs), plus the integer screen rectangle.

    `F32` stands for Rust's `f32`. The wrapper only copies these values, so
    they are modelled as reals; the one computed value is a rectangle's
    endpoint, origin plus size.
 */
module Geometry {

  type F32 = real

  /** A signed 32-bit integer (`i32`). */
  type i32 = x: int | -0x8000_0000 <= x < 0x8000_0000

  datatype Point = Point(x: F32, y: F32)
  datatype Size = Size(width: F32, height: F32)
  datatype Vector = Vector(x: F32, y: F32)
  datatype Rect = Rect(origin: Point, size: Size)
  datatype Circle = Circle(center: Point, radius: F32)
  datatype Rgba = Rgba(r: F32, g: F32, b: F32, a: F32)

  /** The far corner of a rectangle, origin plus size. */
  function Endpoint(rc: Rect): Point
  {
    Point(rc.origin.x + rc.size.width, rc.origin.y + rc.size.height)
  }

  datatype D2DPoint = D2DPoint(x: F32, y: F32)
  datatype D2DSize = D2DSize(width: F32, height: F32)
  datatype D2DRect = D2DRect(left: F32, top: F32, right: F32, bottom: F32)
  datatype D2DEllipse = D2DEllipse(point: D2DPoint, radiusX: F32, radiusY: F32)
  datatype D2DColor = D2DColor(r: F32, g: F32, b: F32, a: F32)

  // Inverse conversions, used to state that each conversion loses nothing.

  function PointFromD2D(p: D2DPoint): Point { Point(p.x, p.y) }
  function SizeFromD2D(s: D2DSize): Size { Size(s.width, s.height) }
  function VectorFromD2D(p: D2DPoint): Vector { Vector(p.x, p.y) }
  function RgbaFromD2D(c: D2DColor): Rgba { Rgba(c.r, c.g, c.b, c.a) }
  function RectFromD2D(rc: D2DRect): Rect
  {
    Rect(Point(rc.left, rc.top), Size(rc.right - rc.left, rc.bottom - rc.top))
  }

  /** `From<Inner<Point>> for D2D_POINT_2F`. */
  function PointToD2D(p: Point): (r: D2DPoint)
    ensures PointFromD2D(r) == p
  {
    D2DPoint(p.x, p.y)
  }

  /** `From<Inner<Size>> for D2D_SIZE_F`. */
  function SizeToD2D(s: Size): (r: D2DSize)
    ensures SizeFromD2D(r) == s
  {
    D2DSize(s.width, s.height)
  }

  /** `From<Inner<Vector>> for D2D_POINT_2F`. */
  function VectorToD2D(v: Vector): (r: D2DPoint)
    ensures VectorFromD2D(r) == v
  {
    D2DPoint(v.x, v.y)
  }

  /** `From<Inner<Rgba>> for D2D1_COLOR_F`. */
  function RgbaToD2D(c: Rgba): (r: D2DColor)
    ensures r.r == c.r && r.g == c.g && r.b == c.b && r.a == c.a
    ensures RgbaFromD2D(r) == c
  {
    D2DColor(c.r, c.g, c.b, c.a)
  }

  /** `From<Inner<Rect>> for D2D_RECT_F`: left/top is the origin and
      right/bottom the endpoint; converting back gives the rectangle again. */
  function RectToD2D(rc: Rect): (r: D2DRect)
    ensures r.left == rc.origin.x && r.top == rc.origin.y
    ensures D2DPoint(r.right, r.bottom) == PointToD2D(Endpoint(rc))
    ensures RectFromD2D(r) == rc
  {
    var ep := Endpoint(rc);
    D2DRect(rc.origin.x, rc.origin.y, ep.x, ep.y)
  }

  /** `From<Inner<Circle>> for D2D1_ELLIPSE`: same centre, both radii equal
      to the circle's radius. */
  function CircleToD2D(c: Circle): (r: D2DEllipse)
    ensures PointFromD2D(r.point) == c.center
    ensures r.radiusX == r.radiusY == c.radius
  {
    D2DEllipse(PointToD2D(c.center), c.radius, c.radius)
  }

  /** A rectangle in screen pixels (`ScreenRect`). */
  datatype ScreenRect = ScreenRect(left: i32, top: i32, right: i32, bottom: i32)

  /** The four fields in declaration order, the layout `repr(C)` fixes. */
  function ScreenRectFields(rc: ScreenRect): seq<i32>
  {
    [rc.left, rc.top, rc.right, rc.bottom]
  }

  /** `ScreenRect::new`: the arguments become left, top, right, bottom. */
  function NewScreenRect(left: i32, top: i32, right: i32, bottom: i32): (r: ScreenRect)
    ensures ScreenRectFields(r) == [left, top, right, bottom]
  {
    ScreenRect(left, top, right, bottom)
  }

  /** `From<[i32; 4]> for ScreenRect`. */
  function ScreenRectFromArray(a: seq<i32>): (r: ScreenRect)
    requires |a| == 4
    ensures ScreenRectFields(r) == a
    ensures r == NewScreenRect(a[0], a[1], a[2], a[3])
  {
    NewScreenRect(a[0], a[1], a[2], a[3])
  }

  /** `From<(i32, i32, i32, i32)> for ScreenRect`. */
  function ScreenRectFromTuple(t: (i32, i32, i32, i32)): (r: ScreenRect)
    ensures ScreenRectFields(r) == [t.0, t.1, t.2, t.3]
    ensures r == ScreenRectFromArray([t.0, t.1, t.2, t.3])
  {
    NewScreenRect(t.0, t.1, t.2, t.3)
  }
}
