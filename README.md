# Drone simulator core in Dafny

This project models the simulation core of a small OpenGL drone simulator.

The **drone** has a position, a rotation (pitch, yaw, roll in degrees) and a propeller speed. It also keeps the current propeller phase and a one-shot 360-degree roll animation. Key presses change its speed, start a roll, move it along its front vector, turn it in steps of 5 degrees, or reset it. Every frame it spins its propellers and advances an active roll.

A **camera** has a type (global, chopper or first person), the look-at vectors `position`/`target`/`up`, fixed projection parameters, and an orbit angle. Only a chopper camera moves by itself: it circles the vertical axis at radius 10.

The **scene** owns the drone, the three cameras in that order, and the index of the active camera. `Scene::update` is one frame of 0.016 s. It advances the drone, orbits the chopper camera and then aims it at the drone. It also puts the first-person camera at the drone's cockpit, looking ahead.

The project has four modules, one per file:

- `Vectors` (`vectors.dfy`)
  - `glm::vec3` as `Vec3` over exact reals.
  - `MathLib`: the external maths. It holds `sin`, `cos`, `inversesqrt` and pi. It is passed as a parameter, and each lemma states in its `requires` what it needs from it. Most need only `TrigIdentity` (sin² + cos² = 1). `FrontIsUnit` also needs inversesqrt(1) = 1. `FrontAtRest` needs sin 0 = 0, cos 0 = 1 and inversesqrt(1) = 1.
- `Drones` (`drone.dfy`)
  - `DroneState`, the value of the drone's six fields. Its member functions say what each operation does to that value.
  - Class `Drone`. It holds the fields, and each method updates them in place. Each method is proved to give exactly `old(State()).Op(...)` and to keep `Valid()`.
  - The lemmas about the operations.
- `Cameras` (`camera.dfy`): `CameraState`, its orbit step, and class `Camera`.
- `Scenes` (`scene.dfy`)
  - Class `Scene` and its per-frame update.
  - The cockpit geometry.
  - The length of a roll in frames.

The drone's state invariant (`DroneState.Invariant`) has three parts:

- The propeller speed is at least 10.
- The speed is a whole multiple of 10.
- A drone that is not rolling has no roll offset.

`DroneState.InRange` adds the angle ranges that hold while every time step is non-negative:

- The propeller phase is in [0, 360].
- An active roll is in [0, 360).

These are proved for the initial state, for every operation, and for every sequence of key presses and ticks (`Run`).

Four behaviours of the code are easy to misread:

- `roll()` while a roll is running restarts that roll from 0 (`RollRestarts`).
- `decreasePropellerSpeed()` only checks `speed > 10`, so the speed can reach exactly 10 (`DecreasePropellerSpeed`). It never goes below 10.
- The propeller phase is wrapped by `fmod` only when it goes strictly past 360. A phase of exactly 360 stays 360, so the phase ranges over [0, 360].
- The frame time is 0.016 s, so a roll takes 125 frames, which is 2.0 s of accumulated time (`RollLasts125Frames`).

## Model

| member | source | states |
|---|---|---|
| Drones.Fmod360 | src/Drone.cpp:116 | C `fmod(x, 360)`: the result has the sign of x and magnitude below 360, differs from x by whole multiples of 360, and is x itself when \|x\| < 360 |
| Drones.PropellerPhase | src/Drone.cpp:114-116 | the phase after a step is the unwrapped angle when that is at most 360, and lies in [0, 360) when it went past 360 |
| Drones.PropellerPhaseWholeTurns | src/Drone.cpp:114-116 | the wrapped phase differs from `angle + speed * dt` by whole turns only (the phase is continuous mod 360) |
| Drones.DroneState.Update | src/Drone.cpp:112-127 | update keeps position, rotation and speed; it sets the phase to the wrapped spin; it leaves a non-rolling drone's roll alone; it advances an active roll by 180 * dt; it ends the roll with offset 0 once it reaches 360 |
| Drones.DroneState.DecreasePropellerSpeed | src/Drone.cpp:142-145 | one step of 10 down when the speed is above 10, otherwise the state is unchanged |
| Drones.DroneState.Reset | src/Drone.cpp:178-183 | reset returns the drone to (0, 2, 0), level and not rolling, and keeps the speed and the propeller phase |
| Drones.Drone.constructor | src/Drone.cpp:104-110 | a new drone is at (0, 2, 0), level, speed 100, not rolling, phase 0, and satisfies the invariant |
| Drones.Drone.Update | src/Drone.cpp:112-127 | the fields become `DroneState.Update(dt)` of the old ones; the invariant is kept, and with dt >= 0 so are the angle ranges |
| Drones.Drone.IncreasePropellerSpeed | src/Drone.cpp:138-140 | the speed goes up by 10, nothing else changes, the invariant is kept |
| Drones.Drone.DecreasePropellerSpeed | src/Drone.cpp:142-145 | the fields become `DroneState.DecreasePropellerSpeed()` of the old ones, and the invariant is kept (the speed stays a multiple of 10 that is at least 10) |
| Drones.Drone.Roll | src/Drone.cpp:147-150 | the roll starts from 0, nothing else changes, the invariant is kept |
| Drones.Drone.MoveForward | src/Drone.cpp:152-155 | the position moves by front * (speed * 0.001), nothing else changes |
| Drones.Drone.MoveBackward | src/Drone.cpp:157-160 | the position moves by -front * (speed * 0.001), nothing else changes |
| Drones.Drone.TurnLeft | src/Drone.cpp:162-164 | the yaw goes up by 5 degrees, nothing else changes |
| Drones.Drone.TurnRight | src/Drone.cpp:166-168 | the yaw goes down by 5 degrees, nothing else changes |
| Drones.Drone.TurnUp | src/Drone.cpp:170-172 | the pitch goes up by 5 degrees, nothing else changes |
| Drones.Drone.TurnDown | src/Drone.cpp:174-176 | the pitch goes down by 5 degrees, nothing else changes |
| Drones.Drone.Reset | src/Drone.cpp:178-183 | the fields become `DroneState.Reset()` of the old ones, and the invariant is kept |
| Drones.Drone.GetPosition | src/Drone.cpp:185-187 | returns the drone's position |
| Drones.Drone.GetRotation | src/Drone.cpp:189-191 | returns the drone's rotation |
| Drones.Drone.GetFront | src/Drone.cpp:193-201 | returns the normalised heading computed from yaw and pitch |
| Drones.InitialInvariant | src/Drone.cpp:104-105 | the constructor's state satisfies the invariant and the angle ranges |
| Drones.IncreasePreservesInvariant | src/Drone.cpp:138-140 | a step up keeps the speed a multiple of 10 that is at least 10 |
| Drones.DecreasePreservesInvariant | src/Drone.cpp:142-145 | the guarded step down keeps the speed a multiple of 10 that is at least 10 (a multiple of 10 above 10 is at least 20) |
| Drones.UpdatePreservesInvariant | src/Drone.cpp:112-127 | a frame update keeps the invariant, including no roll offset once the roll is over |
| Drones.UpdateKeepsRanges | src/Drone.cpp:112-127 | with dt >= 0, the phase stays in [0, 360] and an active roll in [0, 360) |
| Drones.InputPreservesInvariant | src/InputHandler.cpp:17-51 | every key the input handler forwards to the drone, and every tick, keeps the invariant |
| Drones.RunPreservesInvariant | src/InputHandler.cpp:12-63 | any sequence of key presses and ticks keeps the invariant |
| Drones.ReachableSpeed | src/Drone.cpp:104-145 | from the initial drone, whatever the inputs, the speed is a multiple of 10 and at least 10, and a drone not rolling has no roll offset |
| Drones.RunKeepsRanges | src/Drone.cpp:112-127 | any input sequence whose ticks are non-negative keeps the phase and roll ranges |
| Drones.IncreaseThenDecrease | src/Drone.cpp:138-145 | a step up then a step down restores any positive speed |
| Drones.RunAppend | src/InputHandler.cpp:12-63 | running two input sequences one after the other is running their concatenation |
| Drones.IncreaseThenDecreaseRepeated | src/Drone.cpp:138-145 | n presses of F then n presses of S give back the state the drone started with |
| Drones.RollRestarts | src/Drone.cpp:147-150 | roll during a roll resets its progress to 0, so the progress changes |
| Drones.ResetKeepsSpeed | src/Drone.cpp:178-183 | reset gives the initial state except for the kept speed and phase |
| Drones.TurnsCancel | src/Drone.cpp:162-176 | opposite turns undo each other, and each turn changes one angle only |
| Drones.MovesCancel | src/Drone.cpp:152-160 | moving forward then backward (or backward then forward) returns to the start |
| Drones.FrontIsUnit | src/Drone.cpp:193-201 | given sin² + cos² = 1 and inversesqrt(1) = 1, the front vector is the raw direction itself and has length 1 |
| Drones.FrontAtRest | src/Drone.cpp:193-201 | given sin 0 = 0, cos 0 = 1 and inversesqrt(1) = 1, a drone with pitch 0 and yaw 0 faces (0, 0, -1) |
| Drones.RollProgress | src/Drone.cpp:119-126 | while the roll stays below a full turn, n updates of dt advance it by exactly n * 180 * dt and it is still active |
| Drones.RollCompletes | src/Drone.cpp:119-126 | the roll ends, with offset 0, on the first update that brings it to 360 |
| Drones.UpdatesSplit | src/Drone.cpp:112-127 | n + 1 updates are n updates followed by one more |
| Cameras.CameraState.Orbited | src/Camera.cpp:18-26 | a chopper step advances the angle by dt, puts the camera on the orbit circle at its current height, looks at the origin, and keeps `up` |
| Cameras.OrbitOnCircle | src/Camera.cpp:20-23 | under sin² + cos² = 1 an orbit point is at distance 10 from the vertical axis and keeps its height |
| Cameras.Camera.constructor | src/Camera.cpp:4-14 | a new camera has the given type, sits at (0, 0, 5) looking at the origin with up (0, 1, 0), has angle 0, and has projection 45°, 4:3, 0.1, 100 |
| Cameras.Camera.Update | src/Camera.cpp:16-27 | a chopper camera takes its orbit step; any other camera is unchanged |
| Cameras.Camera.SetPosition | src/Camera.cpp:37-39 | only the position changes, to the given one |
| Cameras.Camera.SetTarget | src/Camera.cpp:41-43 | only the target changes, to the given one |
| Cameras.Camera.SetUp | src/Camera.cpp:45-47 | only the up vector changes, to the given one |
| Cameras.Camera.SetAngle | src/Camera.cpp:53-55 | only the orbit angle changes, to the given one |
| Cameras.Camera.GetType | src/Camera.cpp:49-51 | returns the camera's type |
| Scenes.CockpitDistance | src/Scene.cpp:136-143 | under sin² + cos² = 1 the first-person camera is 0.3 above the drone and 0.5 from it horizontally, whatever the yaw |
| Scenes.RollLasts125Frames | src/Scene.cpp:120-124 | a roll started at any moment is still running after 124 frames of 0.016 s and has finished, with offset 0, after 125 |
| Scenes.Scene.constructor | src/Scene.cpp:97-118 | the new scene has a fresh drone in its initial state, the global, chopper and first-person cameras in that order at their set positions and targets with the default projection, and active index 0 |
| Scenes.Scene.Update | src/Scene.cpp:120-146 | one frame of 0.016 s. The drone takes `Update(0.016)`. The chopper camera orbits and then targets the drone's new position. The first-person camera is placed at the cockpit and targets one front vector ahead. The global camera, the camera list and the active index are unchanged |
| Scenes.Scene.UpdateChopperCameras | src/Scene.cpp:126-133 | the loop over the cameras updates exactly the chopper camera and aims it at the drone, leaving the others as they were |
| Scenes.Scene.UpdateFirstPersonCamera | src/Scene.cpp:135-145 | the first-person camera is placed at the drone's position plus the yaw-rotated cockpit offset, and its target is the drone's position plus the front vector |
| Scenes.Scene.GetDrone | src/Scene.cpp:218-220 | returns the scene's drone |
| Scenes.Scene.SetActiveCamera | src/Scene.cpp:222-226 | an index of an existing camera becomes active; any other index is ignored; the scene stays valid |
| Scenes.Scene.GetActiveCamera | src/Scene.cpp:228-230 | returns the camera at the active index, which is always one of the scene's cameras |

## Left out

- Rendering is not modelled. This covers `Drone::render` and its part helpers, `Scene::render`, the marker drawing and the GL buffers. It is graphics output only and changes no simulation state.
- `Camera::getViewMatrix` and `Camera::getProjectionMatrix` are not modelled. They only build glm matrices for rendering.
- `src/main.cpp` is not modelled: the window, the main loop and the clock.
- The GLFW callback plumbing of `src/InputHandler.cpp` is not modelled. The drone keys are modelled as the `Input` datatype, and their effect is modelled by `DroneState.Apply`/`Run`.
  - The camera keys 1/2/3 are covered by `Scene.SetActiveCamera`.
- `include/Shader.h` is not part of this model.
- The scene's `screenWidth` and `screenHeight` are not modelled. They are stored but never read by the simulation.
- Single-precision floating point is not modelled. All quantities are exact reals, and `RollLasts125Frames` holds for exact 0.016 s steps.
- `sin`, `cos`, `inversesqrt` and pi are parameters (`MathLib`), not definitions. Each lemma that needs the maths states its premises: sin² + cos² = 1 for the distance and unit-length lemmas, plus inversesqrt(1) = 1 for `FrontIsUnit`, and sin 0 = 0, cos 0 = 1 and inversesqrt(1) = 1 for `FrontAtRest`.
- The scene holds its drone by value and hands out a pointer to it. The model holds a reference, and `GetDrone` returns it.
- The body of `Scene::update` is split into two helper methods, one for the camera loop and one for the first-person camera, that it calls in order.
