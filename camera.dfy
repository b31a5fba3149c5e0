/** One viewpoint of the scene (src/Camera.cpp, include/Camera.h): a type tag,
    the look-at vectors, fixed projection parameters, and the orbit angle that
    only a chopper camera advances by itself.

    `CameraState` is the value of the camera's mutable fields; the class
    `Camera` holds the fields, with the type and the projection parameters as
    constants, since the source never writes them after construction. */
module Cameras {
  import opened Vectors

  datatype CameraType = Global | Chopper | FirstPerson

  /** Radius of the chopper camera's circle around the world origin. */
  const OrbitRadius := 10.0

  /** The mutable fields of a camera. */
  datatype CameraState = CameraState(position: Vec3, target: Vec3, up: Vec3, angle: real)
  {
    /** Camera::update(dt) for a chopper camera: advance the angle by dt
        (radians), move onto the circle of radius 10 around the vertical axis
        at the current height, and look at the origin; `up` is kept. */
    function Orbited(dt: real, m: MathLib): (r: CameraState)
      ensures r.angle == angle + dt && r.target == Zero && r.up == up
      ensures r.position == OrbitPoint(m, r.angle, position.y)
    {
      var a := angle + dt;
      CameraState(OrbitPoint(m, a, position.y), Zero, up, a)
    }
  }

  /** The point at `angle` radians on the horizontal circle of radius 10
      around the vertical axis, at height y. */
  function OrbitPoint(m: MathLib, angle: real, y: real): Vec3 {
    Vec3(OrbitRadius * m.cos(angle), y, OrbitRadius * m.sin(angle))
  }

  /** Under sin^2 + cos^2 = 1 an orbit point is at distance 10 from the
      vertical axis: x^2 + z^2 = 100. */
  lemma OrbitOnCircle(m: MathLib, angle: real, y: real)
    requires TrigIdentity(m)
    ensures var p := OrbitPoint(m, angle, y);
            p.x * p.x + p.z * p.z == OrbitRadius * OrbitRadius && p.y == y
  {
    CircleArithmetic(m.cos(angle), m.sin(angle));
  }

  lemma CircleArithmetic(c: real, s: real)
    requires s * s + c * c == 1.0
    ensures (10.0 * c) * (10.0 * c) + (10.0 * s) * (10.0 * s) == 100.0
  {
    calc {
      (10.0 * c) * (10.0 * c) + (10.0 * s) * (10.0 * s);
      100.0 * (c * c + s * s);
      100.0;
    }
  }

  /** The state Camera's constructor gives every camera. */
  const DefaultState := CameraState(Vec3(0.0, 0.0, 5.0), Zero, Vec3(0.0, 1.0, 0.0), 0.0)

  class Camera {
    const kind: CameraType
    var position: Vec3
    var target: Vec3
    var up: Vec3
    const fov: real
    const aspectRatio: real
    const nearClip: real
    const farClip: real
    var angle: real

    function State(): CameraState
      reads this
    {
      CameraState(position, target, up, angle)
    }

    /** The projection every camera is built with: a 45 degree field of view,
        aspect ratio 4:3, near plane 0.1, far plane 100. */
    predicate DefaultProjection() {
      fov == 45.0 && aspectRatio == 4.0 / 3.0 && nearClip == 0.1 && farClip == 100.0
    }

    constructor (kind: CameraType)
      ensures this.kind == kind
      ensures State() == DefaultState
      ensures DefaultProjection()
    {
      this.kind := kind;
      position := Vec3(0.0, 0.0, 5.0);
      target := Zero;
      up := Vec3(0.0, 1.0, 0.0);
      fov := 45.0;
      aspectRatio := 4.0 / 3.0;
      nearClip := 0.1;
      farClip := 100.0;
      angle := 0.0;
    }

    /** Camera::update: only a chopper camera moves by itself. */
    method Update(dt: real, m: MathLib)
      modifies this
      ensures kind == Chopper ==> State() == old(State()).Orbited(dt, m)
      ensures kind != Chopper ==> State() == old(State())
    {
      if kind == Chopper {
        angle := angle + dt;
        var radius := OrbitRadius;
        position := position.(x := radius * m.cos(angle));
        position := position.(z := radius * m.sin(angle));
        target := Zero;
      }
    }

    method SetPosition(p: Vec3)
      modifies this`position
      ensures State() == old(State()).(position := p)
    {
      position := p;
    }

    method SetTarget(t: Vec3)
      modifies this`target
      ensures State() == old(State()).(target := t)
    {
      target := t;
    }

    method SetUp(u: Vec3)
      modifies this`up
      ensures State() == old(State()).(up := u)
    {
      up := u;
    }

    method SetAngle(a: real)
      modifies this`angle
      ensures State() == old(State()).(angle := a)
    {
      angle := a;
    }

    method GetType() returns (t: CameraType)
      ensures t == kind
    {
      t := kind;
    }
  }
}
