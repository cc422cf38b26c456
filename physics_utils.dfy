/**
 * PhysicsUtils: unit conversion between screen pixels and Box2D metres, the
 * angle convention used by the steering code, and the distance helpers.
 */
module PhysicsUtils {
  import opened Vectors
  import opened RealMath

  /** Metres per pixel and pixels per metre; two separate literals in the code. */
  const MetresPerPixel: real := 0.02
  const PixelsPerMetre: real := 50.0

  function PixelsToMeters(pixels: int): (metres: real)
    ensures metres * PixelsPerMetre == pixels as real
  {
    pixels as real * MetresPerPixel
  }

  /** Java's (int) cast of a finite value: truncation toward zero. */
  function TruncateToInt(r: real): (i: int)
    ensures r >= 0.0 ==> 0 <= i && i as real <= r < i as real + 1.0
    ensures r < 0.0 ==> i <= 0 && i as real - 1.0 < r <= i as real
  {
    if r >= 0.0 then r.Floor else -((-r).Floor)
  }

  /** The pixel count is the metre value scaled by 50 and cut toward zero: never further from zero, less than one pixel short. */
  function MetersToPixels(meters: real): (p: int)
    ensures meters >= 0.0 ==> p >= 0 && p as real <= meters * 50.0 < p as real + 1.0
    ensures meters < 0.0 ==> p <= 0 && p as real - 1.0 < meters * 50.0 <= p as real
  {
    TruncateToInt(meters * PixelsPerMetre)
  }

  lemma PixelsToMetersOfZero()
    ensures PixelsToMeters(0) == 0.0
  {
  }

  lemma PixelsToMetersMonotone(p: int, q: int)
    requires p <= q
    ensures PixelsToMeters(p) <= PixelsToMeters(q)
  {
  }

  /** Over the reals 0.02 * 50 is exactly 1, so converting pixels to metres and back is the identity. */
  lemma MetersToPixelsUndoesPixelsToMeters(p: int)
    ensures MetersToPixels(PixelsToMeters(p)) == p
  {
    assert PixelsToMeters(p) * PixelsPerMetre == p as real;
  }

  /** The steering angle of a direction: 0 points along +y, growing counter-clockwise. */
  function VectorToAngle(v: Vec2, m: MathLib): real {
    m.atan2(-v.x, v.y)
  }

  /**
   * angleToVector as written: it overwrites and returns the very vector it is
   * given, computed from that vector's OLD components; `angle` is not read.
   */
  method AngleToVector(outVector: Vector2, angle: real, m: MathLib) returns (r: Vector2)
    modifies outVector
    ensures r == outVector
    ensures r.x == -m.sin(old(outVector.x)) && r.y == m.cos(old(outVector.y))
  {
    outVector.x := -m.sin(outVector.x);
    outVector.y := m.cos(outVector.y);
    r := outVector;
  }

  /** The displacement of length `distance` along the direction from `start` to `target`. */
  function TowardsOffset(start: Vec2, target: Vec2, distance: real, m: MathLib): Vec2 {
    var angle := m.atan2(target.y - start.y, target.x - start.x);
    Vec2(distance * m.cos(angle), distance * m.sin(angle))
  }

  /** The displacement of length `distance` along the direction of `point` from the origin. */
  function OutwardsOffset(point: Vec2, distance: real, m: MathLib): Vec2 {
    var angle := m.atan2(point.y, point.x);
    Vec2(distance * m.cos(angle), distance * m.sin(angle))
  }

  /** addDistance(start, target, distance): a fresh vector; neither argument is changed (no modifies). */
  method AddDistanceTowards(start: Vector2, target: Vector2, distance: real, m: MathLib) returns (r: Vector2)
    ensures fresh(r)
    ensures r.Value() == Add(start.Value(), TowardsOffset(start.Value(), target.Value(), distance, m))
  {
    var s := start.Cpy();
    var angle := m.atan2(target.y - s.y, target.x - s.x);
    var x := distance * m.cos(angle);
    var y := distance * m.sin(angle);
    s.x, s.y := s.x + x, s.y + y;
    r := s;
  }

  /** addDistance(point, distance). */
  method AddDistance(point: Vector2, distance: real, m: MathLib) returns (r: Vector2)
    ensures fresh(r)
    ensures r.Value() == Add(point.Value(), OutwardsOffset(point.Value(), distance, m))
  {
    var p := point.Cpy();
    var angle := m.atan2(p.y, p.x);
    var x := distance * m.cos(angle);
    var y := distance * m.sin(angle);
    p.x, p.y := p.x + x, p.y + y;
    r := p;
  }

  /** subDistance(start, target, distance). */
  method SubDistanceTowards(start: Vector2, target: Vector2, distance: real, m: MathLib) returns (r: Vector2)
    ensures fresh(r)
    ensures r.Value() == Sub(start.Value(), TowardsOffset(start.Value(), target.Value(), distance, m))
  {
    var s := start.Cpy();
    var angle := m.atan2(target.y - s.y, target.x - s.x);
    var x := distance * m.cos(angle);
    var y := distance * m.sin(angle);
    s.x, s.y := s.x - x, s.y - y;
    r := s;
  }

  /** subDistance(point, distance). */
  method SubDistance(point: Vector2, distance: real, m: MathLib) returns (r: Vector2)
    ensures fresh(r)
    ensures r.Value() == Sub(point.Value(), OutwardsOffset(point.Value(), distance, m))
  {
    var p := point.Cpy();
    var angle := m.atan2(p.y, p.x);
    var x := distance * m.cos(angle);
    var y := distance * m.sin(angle);
    p.x, p.y := p.x - x, p.y - y;
    r := p;
  }

  /** For equal arguments the add and sub helpers move by opposite offsets: the start is their midpoint. */
  lemma TowardsHelpersAreSymmetric(start: Vec2, target: Vec2, distance: real, m: MathLib)
    ensures var o := TowardsOffset(start, target, distance, m);
      Midpoint(Add(start, o), Sub(start, o)) == start
  {
  }

  lemma OutwardsHelpersAreSymmetric(point: Vec2, distance: real, m: MathLib)
    ensures var o := OutwardsOffset(point, distance, m);
      Midpoint(Add(point, o), Sub(point, o)) == point
  {
  }

  /** The offset a helper applies has length |distance| whenever sin and cos satisfy sin^2 + cos^2 = 1. */
  lemma OffsetHasRequestedLength(angle: real, distance: real, m: MathLib)
    requires PythagoreanIdentity(m)
    ensures Len2(Vec2(distance * m.cos(angle), distance * m.sin(angle))) == distance * distance
  {
    var c, s := m.cos(angle), m.sin(angle);
    assert s * s + c * c == 1.0;
    calc {
      Len2(Vec2(distance * c, distance * s));
      (distance * c) * (distance * c) + (distance * s) * (distance * s);
      (distance * distance) * (s * s + c * c);
    }
  }

  lemma TowardsOffsetLength(start: Vec2, target: Vec2, distance: real, m: MathLib)
    requires PythagoreanIdentity(m)
    ensures Len2(TowardsOffset(start, target, distance, m)) == distance * distance
  {
    OffsetHasRequestedLength(m.atan2(target.y - start.y, target.x - start.x), distance, m);
  }

  lemma OutwardsOffsetLength(point: Vec2, distance: real, m: MathLib)
    requires PythagoreanIdentity(m)
    ensures Len2(OutwardsOffset(point, distance, m)) == distance * distance
  {
    OffsetHasRequestedLength(m.atan2(point.y, point.x), distance, m);
  }
}
