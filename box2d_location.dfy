/** Box2DLocation: the scratch location object steering behaviours ask an agent for. */
module Locations {
  import opened Vectors
  import opened RealMath
  import PhysicsUtils

  class Box2DLocation {
    var position: Vector2
    var orientation: real

    /** A fresh location owns a fresh vector at the origin and faces angle 0. */
    constructor ()
      ensures fresh(position)
      ensures position.Value() == Zero && orientation == 0.0
    {
      position := new Vector2(0.0, 0.0);
      orientation := 0.0;
    }

    /** Returns the stored vector itself, not a copy: a caller's writes to it move this location. */
    method GetPosition() returns (p: Vector2)
      ensures p == position
    {
      p := position;
    }

    function GetOrientation(): real
      reads this
    {
      orientation
    }

    /** Changes the orientation and nothing else. */
    method SetOrientation(orientation: real)
      modifies this`orientation
      ensures this.orientation == orientation
      ensures position == old(position) && position.Value() == old(position.Value())
    {
      this.orientation := orientation;
    }

    /** A new location at the origin, whatever this one holds; this one is not changed (no modifies). */
    method NewLocation() returns (l: Box2DLocation)
      ensures fresh(l) && fresh(l.position)
      ensures l.position.Value() == Zero && l.orientation == 0.0
    {
      l := new Box2DLocation();
    }

    /** Delegates to PhysicsUtils.vectorToAngle. */
    function VectorToAngle(v: Vec2, m: MathLib): (angle: real)
      ensures angle == m.atan2(-v.x, v.y)
    {
      PhysicsUtils.VectorToAngle(v, m)
    }

    /** Delegates to PhysicsUtils.angleToVector, which rewrites `outVector` from its own old components. */
    method AngleToVector(outVector: Vector2, angle: real, m: MathLib) returns (r: Vector2)
      modifies outVector
      ensures r == outVector
      ensures r.x == -m.sin(old(outVector.x)) && r.y == m.cos(old(outVector.y))
    {
      r := PhysicsUtils.AngleToVector(outVector, angle, m);
    }
  }

  /** Through the vector GetPosition returns, a caller moves the location itself. */
  method MoveThroughGetPosition(l: Box2DLocation, target: Vec2)
    modifies l.position
    ensures l.position.Value() == target && l.orientation == old(l.orientation)
  {
    var p := l.GetPosition();
    p.x, p.y := target.x, target.y;
  }
}
