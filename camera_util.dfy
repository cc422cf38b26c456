/**
 * CameraUtil: the per-frame camera follow (a 10% step toward the player) and
 * the clamp that keeps the camera's view inside the map.
 */
module CameraUtil {
  import opened Vectors

  datatype Vec3 = Vec3(x: real, y: real, z: real)

  /** The part of a libGDX camera these helpers touch. */
  class Camera {
    var position: Vec3
    var viewportWidth: real
    var viewportHeight: real

    constructor (position: Vec3, viewportWidth: real, viewportHeight: real)
      ensures this.position == position
      ensures this.viewportWidth == viewportWidth && this.viewportHeight == viewportHeight
    {
      this.position := position;
      this.viewportWidth := viewportWidth;
      this.viewportHeight := viewportHeight;
    }
  }

  const FollowFactor: real := 0.1

  /** One follow step on one axis: a tenth of the way from `p` to `t`. */
  function FollowAxis(p: real, t: real): real {
    p + (t - p) * FollowFactor
  }

  /** One clamp on one axis: first raise to `half`, then lower so that `p + half` does not pass `extent`. */
  function ClampAxis(p: real, half: real, extent: real): real {
    var raised := if p < half then half else p;
    if raised + half > extent then extent - half else raised
  }

  method StickToPlayer(camera: Camera, target: Vec2)
    modifies camera`position
    ensures camera.position == Vec3(FollowAxis(old(camera.position.x), target.x),
                                    FollowAxis(old(camera.position.y), target.y),
                                    old(camera.position.z))
  {
    var position := camera.position;
    position := position.(x := position.x + (target.x - position.x) * 0.1);
    position := position.(y := position.y + (target.y - position.y) * 0.1);
    camera.position := position;
  }

  /** boundary(camera, map): half the viewport on each axis against the map's width and height. */
  method Boundary(camera: Camera, mapWidth: int, mapHeight: int)
    modifies camera`position
    ensures camera.position == Vec3(ClampAxis(old(camera.position.x), camera.viewportWidth / 2.0, mapWidth as real),
                                    ClampAxis(old(camera.position.y), camera.viewportHeight / 2.0, mapHeight as real),
                                    old(camera.position.z))
  {
    var x := camera.viewportWidth / 2.0;
    var y := camera.viewportHeight / 2.0;
    BoundaryWithin(camera, x, y, mapWidth as real, mapHeight as real);
  }

  /** The private five-argument boundary: the two lower clamps run before the two upper ones. */
  method BoundaryWithin(camera: Camera, x: real, y: real, width: real, height: real)
    modifies camera`position
    ensures camera.position == Vec3(ClampAxis(old(camera.position.x), x, width),
                                    ClampAxis(old(camera.position.y), y, height),
                                    old(camera.position.z))
  {
    var position := camera.position;
    if position.x < x {
      position := position.(x := x);
    }
    if position.y < y {
      position := position.(y := y);
    }
    if position.x + x > width {
      position := position.(x := width - x);
    }
    if position.y + y > height {
      position := position.(y := height - y);
    }
    camera.position := position;
  }

  /** The view never passes the far edge of the map. */
  lemma ClampRespectsFarEdge(p: real, half: real, extent: real)
    ensures ClampAxis(p, half, extent) + half <= extent
  {
  }

  /** When the map is at least as wide as the view, the view ends fully inside it. */
  lemma ClampInsideWideMap(p: real, half: real, extent: real)
    requires extent >= 2.0 * half
    ensures half <= ClampAxis(p, half, extent) <= extent - half
  {
  }

  /** When the map is narrower than the view, the upper clamp runs last and always wins. */
  lemma ClampOnNarrowMap(p: real, half: real, extent: real)
    requires extent < 2.0 * half
    ensures ClampAxis(p, half, extent) == extent - half
  {
  }

  lemma ClampKeepsInBounds(p: real, half: real, extent: real)
    requires half <= p && p + half <= extent
    ensures ClampAxis(p, half, extent) == p
  {
  }

  lemma ClampIdempotent(p: real, half: real, extent: real)
    ensures ClampAxis(ClampAxis(p, half, extent), half, extent) == ClampAxis(p, half, extent)
  {
  }

  /** Following shrinks the remaining distance to nine tenths; the target itself is a fixed point. */
  lemma FollowShrinksDistance(p: real, t: real)
    ensures t - FollowAxis(p, t) == 0.9 * (t - p)
    ensures p == t ==> FollowAxis(p, t) == p
  {
  }
}
