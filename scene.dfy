/** The scene (src/Scene.cpp, include/Scene.h): one drone, the three cameras
    in a fixed order (global, chopper, first person), the index of the active
    camera, and the per-frame update that advances the drone and re-derives
    the cameras that follow it. */
module Scenes {
  import opened Vectors
  import opened Drones
  import opened Cameras

  /** The fixed time step of one Scene::update. */
  const FrameTime := 0.016
  /** The first-person camera's offset from the drone, before the yaw rotation. */
  const CockpitOffset := Vec3(0.0, 0.3, -0.5)

  /** Where the first-person camera sits for a drone in state d: the drone's
      position plus the cockpit offset rotated by the yaw alone. */
  function CockpitPosition(d: DroneState, m: MathLib): Vec3 {
    Add(d.position, RotateY(m, Radians(m, d.rotation.y), CockpitOffset))
  }

  /** What the first-person camera looks at: one unit ahead of the drone. */
  function CockpitTarget(d: DroneState, m: MathLib): Vec3 {
    Add(d.position, d.Front(m))
  }

  /** The first-person camera rides 0.3 above the drone and, under
      sin^2 + cos^2 = 1, at horizontal distance 0.5 from it, whatever the yaw. */
  lemma CockpitDistance(d: DroneState, m: MathLib)
    requires TrigIdentity(m)
    ensures var o := Sub(CockpitPosition(d, m), d.position);
            o.y == 0.3 && o.x * o.x + o.z * o.z == 0.25
  {
    var yaw := Radians(m, d.rotation.y);
    OffsetArithmetic(m.cos(yaw), m.sin(yaw));
  }

  lemma OffsetArithmetic(c: real, s: real)
    requires s * s + c * c == 1.0
    ensures (c * 0.0 + s * -0.5) * (c * 0.0 + s * -0.5) + (-s * 0.0 + c * -0.5) * (-s * 0.0 + c * -0.5) == 0.25
  {
    calc {
      (c * 0.0 + s * -0.5) * (c * 0.0 + s * -0.5) + (-s * 0.0 + c * -0.5) * (-s * 0.0 + c * -0.5);
      0.25 * (s * s + c * c);
      0.25;
    }
  }

  /** A roll started at any moment lasts exactly 125 frames of 0.016 seconds
      (two seconds): the drone is still rolling after 124 frames and has
      finished, with no roll offset left, after 125. */
  lemma RollLasts125Frames(s: DroneState)
    ensures forall k: nat :: k < 125 ==> s.Roll().Updates(FrameTime, k).isRolling
    ensures !s.Roll().Updates(FrameTime, 125).isRolling
    ensures s.Roll().Updates(FrameTime, 125).rollAngle == 0.0
  {
    forall k: nat | k < 125
      ensures s.Roll().Updates(FrameTime, k).isRolling
    {
      assert RollSpeed * FrameTime * k as real <= 357.12;
      RollProgress(s.Roll(), FrameTime, k);
    }
    RollCompletes(s.Roll(), FrameTime, 125);
  }

  class Scene {
    const drone: Drone
    var cameras: seq<Camera>
    var activeCameraIndex: int

    /** Three cameras of the three types in the constructor's order, and an
        active index that always names one of them. */
    ghost predicate Valid()
      reads this, drone
    {
      drone.Valid() &&
      |cameras| == 3 &&
      cameras[0].kind == Global && cameras[1].kind == Chopper && cameras[2].kind == FirstPerson &&
      0 <= activeCameraIndex < |cameras|
    }

    constructor ()
      ensures Valid()
      ensures fresh(drone) && fresh(cameras[0]) && fresh(cameras[1]) && fresh(cameras[2])
      ensures drone.State() == Initial
      ensures activeCameraIndex == 0
      ensures cameras[0].State() == DefaultState.(position := Vec3(0.0, 5.0, 10.0), target := Zero)
      ensures cameras[1].State() == DefaultState.(position := Vec3(0.0, 10.0, 0.0), target := Zero)
      ensures cameras[2].State() == DefaultState.(position := Vec3(0.0, 2.0, 1.0), target := Vec3(0.0, 2.0, 0.0))
      ensures cameras[0].DefaultProjection() && cameras[1].DefaultProjection() && cameras[2].DefaultProjection()
    {
      drone := new Drone();
      activeCameraIndex := 0;

      var globalCamera := new Camera(Global);
      globalCamera.SetPosition(Vec3(0.0, 5.0, 10.0));
      globalCamera.SetTarget(Zero);

      var chopperCamera := new Camera(Chopper);
      chopperCamera.SetPosition(Vec3(0.0, 10.0, 0.0));
      chopperCamera.SetTarget(Zero);

      var fpCamera := new Camera(FirstPerson);
      fpCamera.SetPosition(Vec3(0.0, 2.0, 1.0));
      fpCamera.SetTarget(Vec3(0.0, 2.0, 0.0));

      cameras := [globalCamera, chopperCamera, fpCamera];
    }

    /** Scene::update: one frame of 0.016 seconds. The drone advances; the
        chopper camera orbits and then looks at the drone's new position; the
        first-person camera is placed at the cockpit and looks ahead. The
        global camera, the camera list and the active index stay as they were. */
    method Update(m: MathLib)
      requires Valid()
      modifies drone, cameras
      ensures Valid()
      ensures cameras == old(cameras) && activeCameraIndex == old(activeCameraIndex)
      ensures drone.State() == old(drone.State()).Update(FrameTime)
      ensures cameras[0].State() == old(cameras[0].State())
      ensures cameras[1].State() == old(cameras[1].State()).Orbited(FrameTime, m).(target := drone.position)
      ensures cameras[2].State() ==
                old(cameras[2].State()).(position := CockpitPosition(drone.State(), m),
                                         target := CockpitTarget(drone.State(), m))
    {
      var deltaTime := FrameTime;
      drone.Update(deltaTime);
      UpdateChopperCameras(deltaTime, m);
      UpdateFirstPersonCamera(m);
    }

    /** The loop of Scene::update over the cameras: every chopper camera runs
        its own update and is then re-aimed at the drone. */
    method UpdateChopperCameras(deltaTime: real, m: MathLib)
      requires Valid()
      modifies cameras
      ensures Valid()
      ensures cameras[0].State() == old(cameras[0].State())
      ensures cameras[1].State() == old(cameras[1].State()).Orbited(deltaTime, m).(target := drone.position)
      ensures cameras[2].State() == old(cameras[2].State())
    {
      var i := 0;
      while i < |cameras|
        invariant 0 <= i <= |cameras|
        invariant forall j :: 0 <= j < i && cameras[j].kind == Chopper ==>
                    cameras[j].State() == old(cameras[j].State()).Orbited(deltaTime, m).(target := drone.position)
        invariant forall j :: 0 <= j < |cameras| && (i <= j || cameras[j].kind != Chopper) ==>
                    cameras[j].State() == old(cameras[j].State())
      {
        var cam := cameras[i];
        var kind := cam.GetType();
        if kind == Chopper {
          cam.Update(deltaTime, m);
          var target := drone.GetPosition();
          cam.SetTarget(target);
        }
        i := i + 1;
      }
    }

    /** The end of Scene::update: the first-person camera sits at the cockpit,
        whose offset turns with the drone's yaw, and looks along the drone's
        front vector. */
    method UpdateFirstPersonCamera(m: MathLib)
      requires Valid()
      modifies cameras[2]
      ensures Valid()
      ensures cameras[0].State() == old(cameras[0].State())
      ensures cameras[1].State() == old(cameras[1].State())
      ensures cameras[2].State() ==
                old(cameras[2].State()).(position := CockpitPosition(drone.State(), m),
                                         target := CockpitTarget(drone.State(), m))
    {
      var fpCamera := cameras[2];
      var rotation := drone.GetRotation();
      var yaw := Radians(m, rotation.y);
      var rotatedOffset := RotateY(m, yaw, CockpitOffset);
      var position := drone.GetPosition();
      assert Add(position, rotatedOffset) == CockpitPosition(drone.State(), m);
      fpCamera.SetPosition(Add(position, rotatedOffset));
      var front := drone.GetFront(m);
      fpCamera.SetTarget(Add(position, front));
    }

    /** Scene::getDrone. */
    method GetDrone() returns (d: Drone)
      ensures d == drone
    {
      d := drone;
    }

    /** Scene::setActiveCamera: only an index of an existing camera is taken;
        any other index is ignored. */
    method SetActiveCamera(index: int)
      requires Valid()
      modifies this`activeCameraIndex
      ensures Valid()
      ensures 0 <= index < |cameras| ==> activeCameraIndex == index
      ensures !(0 <= index < |cameras|) ==> activeCameraIndex == old(activeCameraIndex)
    {
      if index >= 0 && index < |cameras| {
        activeCameraIndex := index;
      }
    }

    /** Scene::getActiveCamera: never out of bounds, because the index is
        always that of one of the three cameras. */
    method GetActiveCamera() returns (c: Camera)
      requires Valid()
      ensures c == cameras[activeCameraIndex] && c in cameras
    {
      c := cameras[activeCameraIndex];
    }
  }
}
