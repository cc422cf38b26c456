/**
 * The shape converters of MapBodyManager: each turns one map object's geometry,
 * in pixels, into the Box2D shape it builds, dividing by the units-per-pixel
 * ratio `units`, except the hollow rectangle, which the code builds from the
 * raw pixel rectangle.
 */
module Geometry {
  import opened Vectors
  import opened Maps

  /** The Box2D shapes the converters build. */
  datatype Shape =
    | BoxShape(halfWidth: real, halfHeight: real, center: Vec2, angle: real) // PolygonShape.setAsBox
    | PolygonShape(vertices: seq<real>)                                    // PolygonShape.set, flattened
    | ChainShape(points: seq<Vec2>)                                        // ChainShape.createChain
    | CircleShape(center: Vec2, radius: real)

  /** getRectangle: a box, not rotated, spanning exactly the rectangle's extent in world units. */
  function GetRectangle(r: Rect, units: real): (s: Shape)
    requires units != 0.0
    ensures s.BoxShape? && s.angle == 0.0
    ensures (s.center.x - s.halfWidth) * units == r.x && (s.center.x + s.halfWidth) * units == r.x + r.width
    ensures (s.center.y - s.halfHeight) * units == r.y && (s.center.y + s.halfHeight) * units == r.y + r.height
  {
    var center := Vec2((r.x + r.width * 0.5) / units, (r.y + r.height * 0.5) / units);
    BoxShape(r.width * 0.5 / units, r.height * 0.5 / units, center, 0.0)
  }

  /** getCircle: centre and radius both in world units. */
  function GetCircle(c: Circle, units: real): (s: Shape)
    requires units != 0.0
    ensures s.CircleShape?
    ensures s.center.x * units == c.x && s.center.y * units == c.y && s.radius * units == c.radius
  {
    CircleShape(Vec2(c.x / units, c.y / units), c.radius / units)
  }

  /** getPolygon: every coordinate in world units, count and order kept. */
  function GetPolygon(vertices: seq<real>, units: real): (s: Shape)
    requires units != 0.0
    ensures s.PolygonShape? && |s.vertices| == |vertices|
    ensures forall i :: 0 <= i < |vertices| ==> s.vertices[i] * units == vertices[i]
  {
    PolygonShape(seq(|vertices|, i requires 0 <= i < |vertices| => vertices[i] / units))
  }

  /** getPolyline: consecutive coordinate pairs become points in world units; an odd last coordinate is dropped. */
  function GetPolyline(vertices: seq<real>, units: real): (s: Shape)
    requires units != 0.0
    ensures s.ChainShape? && |s.points| == |vertices| / 2
    ensures forall i :: 0 <= i < |s.points| ==>
              s.points[i].x * units == vertices[2 * i] && s.points[i].y * units == vertices[2 * i + 1]
  {
    ChainShape(seq(|vertices| / 2, i requires 0 <= i < |vertices| / 2 =>
                 Vec2(vertices[i * 2] / units, vertices[i * 2 + 1] / units)))
  }

  /** The four corners of a rectangle, in the order bottom-left, top-left, top-right, bottom-right. */
  function Corner(x0: real, y0: real, x1: real, y1: real, k: nat): Vec2
    requires k < 4
  {
    if k == 0 then Vec2(x0, y0)
    else if k == 1 then Vec2(x0, y1)
    else if k == 2 then Vec2(x1, y1)
    else Vec2(x1, y0)
  }

  /**
   * getHollowRectangle: a closed five-point chain around the rectangle's
   * corners, its last point repeating the first; the coordinates are the
   * rectangle's own, in pixels.
   */
  function GetHollowRectangle(r: Rect): (s: Shape)
    ensures s.ChainShape? && |s.points| == 5
    ensures s.points[0] == s.points[4] == Vec2(r.x, r.y)
    ensures forall k :: 0 <= k < 4 ==> s.points[k] == Corner(r.x, r.y, r.x + r.width, r.y + r.height, k)
  {
    var position := Vec2(r.x, r.y);
    var size := Vec2(r.width, r.height);
    ChainShape([position,
                Vec2(position.x, position.y + size.y),
                Vec2(position.x + size.x, position.y + size.y),
                Vec2(position.x + size.x, position.y),
                Vec2(position.x, position.y)])
  }

  /**
   * The hollow chain traces the same outline as the rectangle's box, but
   * scaled back up by `units`: it is in pixels while the box is in metres.
   */
  lemma HollowRectangleIsUnscaledBoxOutline(r: Rect, units: real)
    requires units != 0.0
    ensures var b := GetRectangle(r, units);
            var chain := GetHollowRectangle(r).points;
            forall k :: 0 <= k < 4 ==>
              chain[k] == Scale(Corner(b.center.x - b.halfWidth, b.center.y - b.halfHeight,
                                       b.center.x + b.halfWidth, b.center.y + b.halfHeight, k), units)
  {
  }

  /** With any ratio other than 1 the hollow chain and the box disagree for a rectangle away from the origin. */
  lemma HollowRectangleIgnoresUnits(r: Rect, units: real)
    requires units != 0.0 && units != 1.0 && r.x != 0.0
    ensures var b := GetRectangle(r, units);
            GetHollowRectangle(r).points[0].x != b.center.x - b.halfWidth
  {
    var b := GetRectangle(r, units);
    var left := b.center.x - b.halfWidth;
    assert left * units == r.x;
    var gap := left - r.x;
    assert gap * units == r.x * (1.0 - units);
    assert r.x * (1.0 - units) != 0.0;
    assert gap == 0.0 ==> gap * units == 0.0;
    assert GetHollowRectangle(r).points[0].x == r.x;
  }
}
