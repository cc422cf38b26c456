/**
 * Character: a steerable entity backed by a dynamic Box2D body. Each frame it
 * turns a steering acceleration into a force (and a torque, or a snap of its
 * facing to its velocity), caps its speeds, and wraps its position around the
 * screen.
 */
module Entities {
  import opened Wrappers
  import opened Vectors
  import opened RealMath
  import PhysicsUtils

  /** The output of a steering behaviour: a linear and an angular acceleration. */
  datatype SteeringAcceleration = SteeringAcceleration(linear: Vec2, angular: real)

  /**
   * The state of the character's Box2D body that the code reads and writes:
   * the transform, the velocities, the force and torque applied since the
   * last world step, and how many times the transform was set.
   */
  datatype BodyState = BodyState(
    position: Vec2,
    angle: real,
    linearVelocity: Vec2,
    angularVelocity: real,
    force: Vec2,
    torque: real,
    transformWrites: nat)

  /** The character's own fields. */
  datatype CharacterFields = CharacterFields(
    boundingRadius: real,
    tagged: bool,
    maxLinearSpeed: real,
    maxLinearAcceleration: real,
    maxAngularSpeed: real,
    maxAngularAcceleration: real,
    independentFacing: bool)

  datatype Exception = UnsupportedOperationException

  /** Below this squared speed the character counts as standing still. */
  const ZeroLinearSpeedThreshold: real := 0.001

  /** Where the character starts when no position is given: (5, 5). */
  const DefaultInitialPosition: Vec2 := Vec2(5.0, 5.0)

  /**
   * The linear cap of applySteering: a velocity faster than maxSpeed is
   * scaled to exactly that speed along the same line; a slower one is kept.
   * The factor carries maxSpeed's sign, so a negative limit also reverses
   * the direction.
   */
  function CapLinearSpeed(v: Vec2, maxSpeed: real, m: MathLib): (r: Vec2)
    requires SqrtSound(m)
    ensures Len2(v) <= maxSpeed * maxSpeed ==> r == v
    ensures Len2(v) > maxSpeed * maxSpeed ==>
              && Len2(r) == maxSpeed * maxSpeed
              && r.x * v.y == r.y * v.x
              && (Dot(r, v) >= 0.0 <==> maxSpeed >= 0.0)
  {
    var speedSquare := Len2(v);
    if speedSquare > maxSpeed * maxSpeed then
      SquareIsNonNegative(maxSpeed);
      var c := maxSpeed / m.sqrt(speedSquare);
      CapFactor(v, maxSpeed, m.sqrt(speedSquare), c);
      Scale(v, c)
    else v
  }

  lemma CapFactor(v: Vec2, maxSpeed: real, s: real, c: real)
    requires Len2(v) > 0.0 && s > 0.0 && s * s == Len2(v) && c == maxSpeed / s
    ensures Len2(Scale(v, c)) == maxSpeed * maxSpeed
    ensures Scale(v, c).x * v.y == Scale(v, c).y * v.x
    ensures Dot(Scale(v, c), v) >= 0.0 <==> maxSpeed >= 0.0
  {
    DivisionUndone(maxSpeed, s, c);
    Len2OfScale(v, c);
    SquareOfProduct(c, s);
    ScaledDot(v, c);
    DotSign(v, c, maxSpeed, s);
  }

  lemma DivisionUndone(a: real, b: real, q: real)
    requires b > 0.0 && q == a / b
    ensures q * b == a
  {
  }

  lemma DotSign(v: Vec2, c: real, maxSpeed: real, s: real)
    requires s > 0.0 && c * s == maxSpeed && Len2(v) > 0.0
    ensures Dot(Scale(v, c), v) >= 0.0 <==> maxSpeed >= 0.0
  {
    ScaledDot(v, c);
    SignOfProduct(c, s);
    SignOfProduct(c, Len2(v));
  }

  lemma SquareIsNonNegative(a: real)
    ensures a * a >= 0.0
  {
  }

  lemma SquareOfProduct(a: real, b: real)
    ensures a * a * (b * b) == (a * b) * (a * b)
  {
  }

  lemma ScaledDot(v: Vec2, c: real)
    ensures Dot(Scale(v, c), v) == c * Len2(v)
    ensures Scale(v, c).x * v.y == Scale(v, c).y * v.x
  {
  }

  lemma SignOfProduct(a: real, b: real)
    requires b > 0.0
    ensures a * b >= 0.0 <==> a >= 0.0
    ensures a > 0.0 ==> a * b > 0.0
  {
    if a >= 0.0 {
      assert a * b >= 0.0;
    } else {
      assert a * b < 0.0;
    }
  }

  /** The angular cap of applySteering: a bound from above only. */
  function CapAngularSpeed(w: real, maxSpeed: real): (r: real)
    ensures r <= w
    ensures w <= maxSpeed ==> r == w
    ensures w > maxSpeed ==> r == maxSpeed
  {
    if w > maxSpeed then maxSpeed else w
  }

  /** Both caps, as applied when some acceleration was applied. */
  function CapSpeeds(b: BodyState, s: CharacterFields, m: MathLib): BodyState
    requires SqrtSound(m)
  {
    b.(linearVelocity := CapLinearSpeed(b.linearVelocity, s.maxLinearSpeed, m),
       angularVelocity := CapAngularSpeed(b.angularVelocity, s.maxAngularSpeed))
  }

  /** Facing follows velocity: the angle of the velocity, and an angular velocity that makes up the turn over deltaTime. */
  function AlignFacing(b: BodyState, deltaTime: real, m: MathLib): BodyState {
    var newOrientation := PhysicsUtils.VectorToAngle(b.linearVelocity, m);
    b.(angularVelocity := (newOrientation - b.angularVelocity) * deltaTime,
       angle := newOrientation,
       transformWrites := b.transformWrites + 1)
  }

  predicate AppliesForce(output: SteeringAcceleration) {
    !IsZero(output.linear)
  }

  predicate AppliesTorque(s: CharacterFields, output: SteeringAcceleration) {
    s.independentFacing && output.angular != 0.0
  }

  /** applySteering on the body, reading the given steering output. */
  function Steered(b: BodyState, s: CharacterFields, output: SteeringAcceleration, deltaTime: real, m: MathLib): BodyState
    requires SqrtSound(m)
  {
    var pushed := if AppliesForce(output) then b.(force := Add(b.force, output.linear)) else b;
    var turned :=
      if s.independentFacing then
        (if AppliesTorque(s, output) then pushed.(torque := pushed.torque + output.angular) else pushed)
      else if !IsZeroWithin(pushed.linearVelocity, ZeroLinearSpeedThreshold) then AlignFacing(pushed, deltaTime, m)
      else pushed;
    if AppliesForce(output) || AppliesTorque(s, output) then CapSpeeds(turned, s, m) else turned
  }

  /** The x rule of wrapAround: past the right edge to 0, then left of 0 to the right edge. */
  function WrapX(x: real, maxX: real): real {
    var x1 := if x > maxX then 0.0 else x;
    if x1 < 0.0 then maxX else x1
  }

  /** The y rule of wrapAround: below 0 to the top edge, then past the top edge to 0. */
  function WrapY(y: real, maxY: real): real {
    var y1 := if y < 0.0 then maxY else y;
    if y1 > maxY then 0.0 else y1
  }

  /** Whether any of the four wrap rules fires, which is when the transform is written. */
  predicate WrapFires(p: Vec2, maxX: real, maxY: real) {
    p.x > maxX || p.x < 0.0 || p.y < 0.0 || p.y > maxY
  }

  function Wrapped(b: BodyState, maxX: real, maxY: real): BodyState {
    if WrapFires(b.position, maxX, maxY) then
      b.(position := Vec2(WrapX(b.position.x, maxX), WrapY(b.position.y, maxY)),
         transformWrites := b.transformWrites + 1)
    else b
  }

  /** update: steer when there is a behaviour, then wrap around a screen of the given size in pixels. */
  function Updated(b: BodyState, s: CharacterFields, behaviour: Option<SteeringAcceleration>, deltaTime: real,
                   screenWidth: int, screenHeight: int, m: MathLib): BodyState
    requires SqrtSound(m)
  {
    var steered := if behaviour.Some? then Steered(b, s, behaviour.value, deltaTime, m) else b;
    Wrapped(steered, PhysicsUtils.PixelsToMeters(screenWidth), PhysicsUtils.PixelsToMeters(screenHeight))
  }

  class Character {
    // the body
    var position: Vec2
    var angle: real
    var linearVelocity: Vec2
    var angularVelocity: real
    var force: Vec2
    var torque: real
    var transformWrites: nat
    // the character
    var boundingRadius: real
    var tagged: bool
    var maxLinearSpeed: real
    var maxLinearAcceleration: real
    var maxAngularSpeed: real
    var maxAngularAcceleration: real
    var independentFacing: bool

    function Body(): BodyState
      reads this
    {
      BodyState(position, angle, linearVelocity, angularVelocity, force, torque, transformWrites)
    }

    function Fields(): CharacterFields
      reads this
    {
      CharacterFields(boundingRadius, tagged, maxLinearSpeed, maxLinearAcceleration, maxAngularSpeed,
               maxAngularAcceleration, independentFacing)
    }

    /** A character at (5, 5), at rest, with every limit zero. */
    constructor ()
      ensures Body() == BodyState(DefaultInitialPosition, 0.0, Zero, 0.0, Zero, 0.0, 0)
      ensures Fields() == CharacterFields(0.0, false, 0.0, 0.0, 0.0, 0.0, false)
    {
      position, angle, linearVelocity, angularVelocity := DefaultInitialPosition, 0.0, Zero, 0.0;
      force, torque, transformWrites := Zero, 0.0, 0;
      boundingRadius, tagged, independentFacing := 0.0, false, false;
      maxLinearSpeed, maxLinearAcceleration, maxAngularSpeed, maxAngularAcceleration := 0.0, 0.0, 0.0, 0.0;
    }

    /** A character at a given position, otherwise as above. */
    constructor At(initialPosition: Vec2)
      ensures Body() == BodyState(initialPosition, 0.0, Zero, 0.0, Zero, 0.0, 0)
      ensures Fields() == CharacterFields(0.0, false, 0.0, 0.0, 0.0, 0.0, false)
    {
      position, angle, linearVelocity, angularVelocity := initialPosition, 0.0, Zero, 0.0;
      force, torque, transformWrites := Zero, 0.0, 0;
      boundingRadius, tagged, independentFacing := 0.0, false, false;
      maxLinearSpeed, maxLinearAcceleration, maxAngularSpeed, maxAngularAcceleration := 0.0, 0.0, 0.0, 0.0;
    }

    /**
     * update: when there is a steering behaviour, its output is written to
     * the shared steering output and applied; then the position wraps
     * around the screen.
     */
    method Update(behaviour: Option<SteeringAcceleration>, deltaTime: real, screenWidth: int, screenHeight: int,
                  m: MathLib)
      requires SqrtSound(m)
      modifies this`position, this`angle, this`linearVelocity, this`angularVelocity, this`force, this`torque,
               this`transformWrites
      ensures Body() == Updated(old(Body()), Fields(), behaviour, deltaTime, screenWidth, screenHeight, m)
    {
      if behaviour.Some? {
        var steeringOutput := behaviour.value;
        ApplySteering(steeringOutput, steeringOutput, deltaTime, m);
      }
      WrapAround(PhysicsUtils.PixelsToMeters(screenWidth), PhysicsUtils.PixelsToMeters(screenHeight));
    }

    /**
     * applySteering. The code reads the shared steering output rather than
     * its `steering` argument; `shared` is that output, and `steering` plays
     * no part.
     */
    method ApplySteering(steering: SteeringAcceleration, shared: SteeringAcceleration, deltaTime: real, m: MathLib)
      requires SqrtSound(m)
      modifies this`position, this`angle, this`linearVelocity, this`angularVelocity, this`force, this`torque,
               this`transformWrites
      ensures Body() == Steered(old(Body()), Fields(), shared, deltaTime, m)
    {
      var anyAccelerations := false;
      if !IsZero(shared.linear) {
        ApplyForceToCenter(shared.linear);
        anyAccelerations := true;
      }
      if independentFacing {
        if shared.angular != 0.0 {
          ApplyTorque(shared.angular);
          anyAccelerations := true;
        }
      } else {
        FaceVelocity(deltaTime, m);
      }
      assert anyAccelerations == (AppliesForce(shared) || AppliesTorque(Fields(), shared));
      if anyAccelerations {
        CapBodySpeeds(m);
      }
    }

    /** The facing branch of applySteering: turn to the velocity unless standing still. */
    method FaceVelocity(deltaTime: real, m: MathLib)
      modifies this`angle, this`angularVelocity, this`position, this`transformWrites
      ensures Body() == if IsZeroWithin(old(linearVelocity), ZeroLinearSpeedThreshold) then old(Body())
                        else AlignFacing(old(Body()), deltaTime, m)
    {
      var linVel := linearVelocity;
      if !IsZeroWithin(linVel, GetZeroLinearSpeedThreshold()) {
        var newOrientation := PhysicsUtils.VectorToAngle(linVel, m);
        SetAngularVelocity((newOrientation - angularVelocity) * deltaTime);
        SetTransform(position, newOrientation);
      }
    }

    /** The capping block of applySteering. */
    method CapBodySpeeds(m: MathLib)
      requires SqrtSound(m)
      modifies this`linearVelocity, this`angularVelocity
      ensures Body() == CapSpeeds(old(Body()), Fields(), m)
    {
      var velocity := linearVelocity;
      var currentSpeedSquare := Len2(velocity);
      var maxSpeed := maxLinearSpeed;
      if currentSpeedSquare > maxSpeed * maxSpeed {
        SetLinearVelocity(Scale(velocity, maxSpeed / m.sqrt(currentSpeedSquare)));
      }
      var maxAngVelocity := maxAngularSpeed;
      if angularVelocity > maxAngVelocity {
        SetAngularVelocity(maxAngVelocity);
      }
    }

    /** wrapAround: the transform is written once, and only when some rule fired. */
    method WrapAround(maxX: real, maxY: real)
      modifies this`position, this`angle, this`transformWrites
      ensures Body() == Wrapped(old(Body()), maxX, maxY)
    {
      var changed := false;
      var pos := position;
      if pos.x > maxX {
        pos, changed := pos.(x := 0.0), true;
      }
      if pos.x < 0.0 {
        pos, changed := pos.(x := maxX), true;
      }
      if pos.y < 0.0 {
        pos, changed := pos.(y := maxY), true;
      }
      if pos.y > maxY {
        pos, changed := pos.(y := 0.0), true;
      }
      if changed {
        SetTransform(pos, angle);
      }
    }

    /** setOrientation: the transform is written with the current position and the new angle. */
    method SetOrientation(orientation: real)
      modifies this`position, this`angle, this`transformWrites
      ensures Body() == old(Body()).(angle := orientation, transformWrites := old(transformWrites) + 1)
    {
      SetTransform(position, orientation);
    }

    // Box2D body operations

    /** applyForceToCenter: the force adds to what the next world step applies. */
    method ApplyForceToCenter(f: Vec2)
      modifies this`force
      ensures force == Add(old(force), f)
    {
      force := Add(force, f);
    }

    method ApplyTorque(t: real)
      modifies this`torque
      ensures torque == old(torque) + t
    {
      torque := torque + t;
    }

    method SetAngularVelocity(w: real)
      modifies this`angularVelocity
      ensures angularVelocity == w
    {
      angularVelocity := w;
    }

    method SetLinearVelocity(v: Vec2)
      modifies this`linearVelocity
      ensures linearVelocity == v
    {
      linearVelocity := v;
    }

    method SetTransform(p: Vec2, a: real)
      modifies this`position, this`angle, this`transformWrites
      ensures position == p && angle == a && transformWrites == old(transformWrites) + 1
    {
      position, angle, transformWrites := p, a, transformWrites + 1;
    }

    // Steerable and Limiter accessors

    function GetMaxLinearSpeed(): real reads this { maxLinearSpeed }
    function GetMaxLinearAcceleration(): real reads this { maxLinearAcceleration }
    function GetMaxAngularSpeed(): real reads this { maxAngularSpeed }
    function GetMaxAngularAcceleration(): real reads this { maxAngularAcceleration }
    function IsTagged(): bool reads this { tagged }

    method SetMaxLinearSpeed(value: real)
      modifies this`maxLinearSpeed
      ensures GetMaxLinearSpeed() == value && Fields() == old(Fields()).(maxLinearSpeed := value)
    {
      maxLinearSpeed := value;
    }

    method SetMaxLinearAcceleration(value: real)
      modifies this`maxLinearAcceleration
      ensures GetMaxLinearAcceleration() == value && Fields() == old(Fields()).(maxLinearAcceleration := value)
    {
      maxLinearAcceleration := value;
    }

    method SetMaxAngularSpeed(value: real)
      modifies this`maxAngularSpeed
      ensures GetMaxAngularSpeed() == value && Fields() == old(Fields()).(maxAngularSpeed := value)
    {
      maxAngularSpeed := value;
    }

    method SetMaxAngularAcceleration(value: real)
      modifies this`maxAngularAcceleration
      ensures GetMaxAngularAcceleration() == value && Fields() == old(Fields()).(maxAngularAcceleration := value)
    {
      maxAngularAcceleration := value;
    }

    method SetTagged(value: bool)
      modifies this`tagged
      ensures IsTagged() == value && Fields() == old(Fields()).(tagged := value)
    {
      tagged := value;
    }

    /** getZeroLinearSpeedThreshold: a fixed value, whatever the setter is asked. */
    function GetZeroLinearSpeedThreshold(): (r: real)
      ensures r == ZeroLinearSpeedThreshold
    {
      0.001
    }

    /** setZeroLinearSpeedThreshold always throws, and nothing changes. */
    method SetZeroLinearSpeedThreshold(value: real) returns (thrown: Option<Exception>)
      ensures thrown == Some(UnsupportedOperationException)
    {
      return Some(UnsupportedOperationException);
    }
  }

  // Properties of the steering and wrap rules

  /** Capping twice is capping once. */
  lemma CapLinearSpeedIdempotent(v: Vec2, maxSpeed: real, m: MathLib)
    requires SqrtSound(m)
    ensures CapLinearSpeed(CapLinearSpeed(v, maxSpeed, m), maxSpeed, m) == CapLinearSpeed(v, maxSpeed, m)
  {
  }

  /** After a step that applied some acceleration, both speeds are within their limits. */
  lemma AccelerationLeavesSpeedsCapped(b: BodyState, s: CharacterFields, output: SteeringAcceleration, deltaTime: real,
                                       m: MathLib)
    requires SqrtSound(m) && (AppliesForce(output) || AppliesTorque(s, output))
    ensures var r := Steered(b, s, output, deltaTime, m);
            Len2(r.linearVelocity) <= s.maxLinearSpeed * s.maxLinearSpeed && r.angularVelocity <= s.maxAngularSpeed
  {
  }

  /** The angular cap has no lower bound: a fast turn the other way is kept as it is. */
  lemma AngularCapIsOneSided(b: BodyState, s: CharacterFields, output: SteeringAcceleration, deltaTime: real, m: MathLib)
    requires SqrtSound(m) && s.independentFacing && output.angular != 0.0
    requires b.angularVelocity <= s.maxAngularSpeed
    ensures Steered(b, s, output, deltaTime, m).angularVelocity == b.angularVelocity
  {
  }

  /**
   * Without independent facing and without a linear acceleration no cap is
   * applied: turning to face the velocity keeps a velocity above the limit
   * as it is.
   */
  lemma FacingAloneIsNotCapped(b: BodyState, s: CharacterFields, output: SteeringAcceleration, deltaTime: real, m: MathLib)
    requires SqrtSound(m) && !s.independentFacing && IsZero(output.linear)
    ensures var r := Steered(b, s, output, deltaTime, m);
            r.linearVelocity == b.linearVelocity && r.force == b.force && r.torque == b.torque
  {
  }

  /**
   * Steering never moves the body: forces add up for the next world step,
   * torque only with independent facing, the angle only changes by facing
   * the velocity, and the angular velocity is the facing rate or the old one,
   * capped whenever some acceleration was applied.
   */
  lemma SteeringEffects(b: BodyState, s: CharacterFields, output: SteeringAcceleration, deltaTime: real, m: MathLib)
    requires SqrtSound(m)
    ensures var r := Steered(b, s, output, deltaTime, m);
            && r.position == b.position
            && r.linearVelocity == (if AppliesForce(output) || AppliesTorque(s, output)
                                   then CapLinearSpeed(b.linearVelocity, s.maxLinearSpeed, m) else b.linearVelocity)
            && r.force == (if AppliesForce(output) then Add(b.force, output.linear) else b.force)
            && r.torque == (if AppliesTorque(s, output) then b.torque + output.angular else b.torque)
            && (s.independentFacing ==> r.angle == b.angle && r.transformWrites == b.transformWrites)
            && (!s.independentFacing && !IsZeroWithin(b.linearVelocity, ZeroLinearSpeedThreshold) ==>
                  r.angle == PhysicsUtils.VectorToAngle(b.linearVelocity, m) && r.transformWrites == b.transformWrites + 1)
            && (!s.independentFacing && IsZeroWithin(b.linearVelocity, ZeroLinearSpeedThreshold) ==>
                  r.angle == b.angle && r.transformWrites == b.transformWrites)
    ensures var faced := !s.independentFacing && !IsZeroWithin(b.linearVelocity, ZeroLinearSpeedThreshold);
            var w := if faced then (PhysicsUtils.VectorToAngle(b.linearVelocity, m) - b.angularVelocity) * deltaTime
                     else b.angularVelocity;
            Steered(b, s, output, deltaTime, m).angularVelocity ==
              (if AppliesForce(output) || AppliesTorque(s, output) then CapAngularSpeed(w, s.maxAngularSpeed) else w)
  {
    var pushed := if AppliesForce(output) then b.(force := Add(b.force, output.linear)) else b;
    assert pushed.linearVelocity == b.linearVelocity && pushed.angularVelocity == b.angularVelocity;
  }

  /** Without a steering behaviour, update only wraps. */
  lemma UpdateWithoutBehaviourOnlyWraps(b: BodyState, s: CharacterFields, deltaTime: real, screenWidth: int,
                                        screenHeight: int, m: MathLib)
    requires SqrtSound(m)
    ensures Updated(b, s, None, deltaTime, screenWidth, screenHeight, m) ==
            Wrapped(b, PhysicsUtils.PixelsToMeters(screenWidth), PhysicsUtils.PixelsToMeters(screenHeight))
  {
  }

  /** Wrapping changes the position and nothing else; the angle is written back as it was. */
  lemma WrapTouchesOnlyPosition(b: BodyState, maxX: real, maxY: real)
    ensures var r := Wrapped(b, maxX, maxY);
            && r.(position := b.position, transformWrites := b.transformWrites) == b
            && r.transformWrites == (if WrapFires(b.position, maxX, maxY) then b.transformWrites + 1 else b.transformWrites)
  {
  }

  /** On a screen of non-negative size, the wrapped position is on the screen. */
  lemma WrapKeepsOnScreen(b: BodyState, maxX: real, maxY: real)
    requires maxX >= 0.0 && maxY >= 0.0
    ensures var p := Wrapped(b, maxX, maxY).position;
            0.0 <= p.x <= maxX && 0.0 <= p.y <= maxY
  {
  }

  /** Each edge wraps to the opposite one. */
  lemma WrapSendsToOppositeEdge(x: real, y: real, maxX: real, maxY: real)
    requires maxX >= 0.0 && maxY >= 0.0
    ensures x > maxX ==> WrapX(x, maxX) == 0.0
    ensures x < 0.0 ==> WrapX(x, maxX) == maxX
    ensures y < 0.0 ==> WrapY(y, maxY) == maxY
    ensures y > maxY ==> WrapY(y, maxY) == 0.0
    ensures 0.0 <= x <= maxX ==> WrapX(x, maxX) == x
    ensures 0.0 <= y <= maxY ==> WrapY(y, maxY) == y
  {
  }

  /** A position on the screen is left alone and the transform is not written. */
  lemma WrapOnScreenIsNoOp(b: BodyState, maxX: real, maxY: real)
    requires 0.0 <= b.position.x <= maxX && 0.0 <= b.position.y <= maxY
    ensures Wrapped(b, maxX, maxY) == b
  {
  }

  /** Wrapping twice is wrapping once, and the second wrap writes nothing. */
  lemma WrapIdempotent(b: BodyState, maxX: real, maxY: real)
    requires maxX >= 0.0 && maxY >= 0.0
    ensures Wrapped(Wrapped(b, maxX, maxY), maxX, maxY) == Wrapped(b, maxX, maxY)
  {
    WrapKeepsOnScreen(b, maxX, maxY);
    WrapOnScreenIsNoOp(Wrapped(b, maxX, maxY), maxX, maxY);
  }
}
