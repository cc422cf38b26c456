/**
 * Two-dimensional vectors as libGDX's Vector2 provides them, over the reals.
 * A `Vec2` is the value of a vector; a `Vector2` object is the mutable vector
 * itself, used where the code relies on updating a vector in place or on two
 * references sharing one vector.
 */
module Vectors {

  datatype Vec2 = Vec2(x: real, y: real)

  const Zero: Vec2 := Vec2(0.0, 0.0)

  function Add(a: Vec2, b: Vec2): Vec2 {
    Vec2(a.x + b.x, a.y + b.y)
  }

  function Sub(a: Vec2, b: Vec2): Vec2 {
    Vec2(a.x - b.x, a.y - b.y)
  }

  function Scale(v: Vec2, k: real): Vec2 {
    Vec2(v.x * k, v.y * k)
  }

  function Midpoint(a: Vec2, b: Vec2): Vec2 {
    Vec2((a.x + b.x) / 2.0, (a.y + b.y) / 2.0)
  }

  function Dot(a: Vec2, b: Vec2): real {
    a.x * b.x + a.y * b.y
  }

  /** Squared length (libGDX `len2`), never negative. */
  function Len2(v: Vec2): (r: real)
    ensures r >= 0.0
  {
    v.x * v.x + v.y * v.y
  }

  /** libGDX `isZero()`: both components exactly zero. */
  predicate IsZero(v: Vec2) {
    v.x == 0.0 && v.y == 0.0
  }

  /** libGDX `isZero(margin)`: the squared length is below the margin. */
  predicate IsZeroWithin(v: Vec2, margin: real) {
    Len2(v) < margin
  }

  /** Scaling multiplies the squared length by the square of the factor. */
  lemma Len2OfScale(v: Vec2, k: real)
    ensures Len2(Scale(v, k)) == k * k * Len2(v)
  {
    calc {
      Len2(Scale(v, k));
      (v.x * k) * (v.x * k) + (v.y * k) * (v.y * k);
      k * k * (v.x * v.x) + k * k * (v.y * v.y);
      k * k * Len2(v);
    }
  }

  /** A mutable libGDX vector. */
  class Vector2 {
    var x: real
    var y: real

    constructor (x: real, y: real)
      ensures this.x == x && this.y == y
    {
      this.x := x;
      this.y := y;
    }

    function Value(): Vec2
      reads this
    {
      Vec2(x, y)
    }

    /** libGDX `cpy()`: a fresh vector with the same components. */
    method Cpy() returns (c: Vector2)
      ensures fresh(c) && c.Value() == Value()
    {
      c := new Vector2(x, y);
    }
  }
}
