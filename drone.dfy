/** The drone: its pose, propeller speed and phase, and the one-shot 360-degree
    roll animation (src/Drone.cpp, include/Drone.h).

    `DroneState` is the value of the drone's six fields, and its member
    functions say what each operation of the source does to that value. The
    class `Drone` holds the fields themselves; each of its methods updates them
    in place and is proved to produce exactly the state the matching function
    describes. The lemmas at the end are about the functions. */
module Drones {
  import opened Vectors

  /** Degrees per second of the roll animation. */
  const RollSpeed := 180.0
  /** Step of increasePropellerSpeed / decreasePropellerSpeed. */
  const SpeedStep := 10.0
  /** Degrees per turnLeft / turnRight / turnUp / turnDown. */
  const TurnStep := 5.0
  /** Distance moved per unit of propeller speed by moveForward / moveBackward. */
  const MoveScale := 0.001
  /** Where the drone starts and where reset puts it back. */
  const SpawnPoint := Vec3(0.0, 2.0, 0.0)

  /** C's fmod(x, 360): the remainder of x after removing whole multiples of
      360, truncated toward zero, so it has the sign of x. */
  function Fmod360(x: real): (r: real)
    ensures 0.0 <= x ==> 0.0 <= r < 360.0
    ensures x < 0.0 ==> -360.0 < r <= 0.0
    ensures IsMultipleOf(x - r, 360.0)
    ensures -360.0 < x < 360.0 ==> r == x
  {
    if x >= 0.0 then
      var q := (x / 360.0).Floor;
      FloorOfWhole(q);
      assert (360.0 * q as real) / 360.0 == q as real;
      x - 360.0 * q as real
    else
      var q := (-x / 360.0).Floor;
      FloorOfWhole(-q);
      assert (-360.0 * q as real) / 360.0 == (-q) as real;
      -(-x - 360.0 * q as real)
  }

  lemma FloorOfWhole(q: int)
    ensures (q as real).Floor == q
  {
  }

  /** The propeller phase after dt seconds at `speed` degrees per second:
      wrapped by fmod only once it goes strictly past 360, so it lands in
      [0, 360) after a wrap and stays exactly 360 when it lands there. */
  function PropellerPhase(angle: real, speed: real, dt: real): (r: real)
    ensures angle + speed * dt <= 360.0 ==> r == angle + speed * dt
    ensures angle + speed * dt > 360.0 ==> 0.0 <= r < 360.0
  {
    var spun := angle + speed * dt;
    if spun > 360.0 then Fmod360(spun) else spun
  }

  /** The wrapped phase differs from the unwrapped angle by whole turns only. */
  lemma PropellerPhaseWholeTurns(angle: real, speed: real, dt: real)
    ensures IsMultipleOf(angle + speed * dt - PropellerPhase(angle, speed, dt), 360.0)
  {
    var spun := angle + speed * dt;
    if spun <= 360.0 {
      FloorOfWhole(0);
    }
  }

  /** x is a whole multiple of the positive step k. */
  ghost predicate IsMultipleOf(x: real, k: real)
    requires k > 0.0
  {
    (x / k).Floor as real == x / k
  }

  /** The key presses the input handler forwards to the drone
      (src/InputHandler.cpp), plus one simulation tick of the given length. */
  datatype Input =
    | KeyS | KeyF | KeyJ | KeyPlus | KeyMinus
    | KeyLeft | KeyRight | KeyUp | KeyDown | KeyD
    | Tick(dt: real)

  /** `rotation` holds pitch in x, yaw in y and the static roll in z, in degrees. */
  datatype DroneState = DroneState(
    position: Vec3,
    rotation: Vec3,
    propellerSpeed: real,
    isRolling: bool,
    rollAngle: real,
    currentPropellerAngle: real)
  {
    /** What every reachable state satisfies, whatever the time steps: the
        speed is a positive multiple of 10, and a drone that is not rolling has
        no roll offset. */
    ghost predicate Invariant() {
      propellerSpeed >= SpeedStep && IsMultipleOf(propellerSpeed, SpeedStep) &&
      (!isRolling ==> rollAngle == 0.0)
    }

    /** The angle ranges that hold as long as every time step is non-negative. */
    ghost predicate InRange() {
      0.0 <= currentPropellerAngle <= 360.0 &&
      (isRolling ==> 0.0 <= rollAngle < 360.0)
    }

    /** Drone::update(dt): spin the propellers, wrapping the phase only when it
        goes strictly past 360, and advance an active roll, ending it once it
        reaches a full turn. Nothing else changes. */
    function Update(dt: real): (r: DroneState)
      ensures r.position == position && r.rotation == rotation && r.propellerSpeed == propellerSpeed
      ensures r.currentPropellerAngle == PropellerPhase(currentPropellerAngle, propellerSpeed, dt)
      ensures !isRolling ==> !r.isRolling && r.rollAngle == rollAngle
      ensures isRolling && rollAngle + RollSpeed * dt < 360.0 ==>
                r.isRolling && r.rollAngle == rollAngle + RollSpeed * dt
      ensures isRolling && rollAngle + RollSpeed * dt >= 360.0 ==> !r.isRolling && r.rollAngle == 0.0
    {
      var phase := PropellerPhase(currentPropellerAngle, propellerSpeed, dt);
      if isRolling then
        var progressed := rollAngle + RollSpeed * dt;
        if progressed >= 360.0 then
          this.(currentPropellerAngle := phase, rollAngle := 0.0, isRolling := false)
        else
          this.(currentPropellerAngle := phase, rollAngle := progressed)
      else
        this.(currentPropellerAngle := phase)
    }

    /** n successive updates with the same time step. */
    function Updates(dt: real, n: nat): DroneState
      decreases n
    {
      if n == 0 then this else Update(dt).Updates(dt, n - 1)
    }

    /** Drone::increasePropellerSpeed. */
    function IncreasePropellerSpeed(): DroneState
    {
      this.(propellerSpeed := propellerSpeed + SpeedStep)
    }

    /** Drone::decreasePropellerSpeed: one step down when the speed is above
        10, otherwise nothing. The guard alone does not keep the speed at or
        above 10; `Invariant` does, together with the step size. */
    function DecreasePropellerSpeed(): (r: DroneState)
      ensures propellerSpeed > SpeedStep ==> r == this.(propellerSpeed := propellerSpeed - SpeedStep)
      ensures propellerSpeed <= SpeedStep ==> r == this
    {
      if propellerSpeed > SpeedStep then this.(propellerSpeed := propellerSpeed - SpeedStep) else this
    }

    /** Drone::roll: start the roll animation from zero, also when one is
        already running. */
    function Roll(): DroneState
    {
      this.(isRolling := true, rollAngle := 0.0)
    }

    /** Drone::getFront: the direction the drone faces; it depends on the
        rotation only. */
    function Front(m: MathLib): Vec3 {
      Heading(m, rotation)
    }

    /** The distance moveForward / moveBackward travel: proportional to the speed. */
    function Stride(m: MathLib): Vec3 {
      Scale(Front(m), propellerSpeed * MoveScale)
    }

    /** Drone::moveForward. */
    function MoveForward(m: MathLib): DroneState
    {
      this.(position := Add(position, Stride(m)))
    }

    /** Drone::moveBackward. */
    function MoveBackward(m: MathLib): DroneState
    {
      this.(position := Sub(position, Stride(m)))
    }

    /** Drone::turnLeft: yaw up by 5 degrees. */
    function TurnLeft(): DroneState
    {
      this.(rotation := rotation.(y := rotation.y + TurnStep))
    }

    /** Drone::turnRight: yaw down by 5 degrees. */
    function TurnRight(): DroneState
    {
      this.(rotation := rotation.(y := rotation.y - TurnStep))
    }

    /** Drone::turnUp: pitch up by 5 degrees. */
    function TurnUp(): DroneState
    {
      this.(rotation := rotation.(x := rotation.x + TurnStep))
    }

    /** Drone::turnDown: pitch down by 5 degrees. */
    function TurnDown(): DroneState
    {
      this.(rotation := rotation.(x := rotation.x - TurnStep))
    }

    /** Drone::reset: back to the spawn point, level, not rolling; the
        propeller speed and phase are kept. */
    function Reset(): (r: DroneState)
      ensures r.position == SpawnPoint && r.rotation == Zero
      ensures !r.isRolling && r.rollAngle == 0.0
      ensures r.propellerSpeed == propellerSpeed && r.currentPropellerAngle == currentPropellerAngle
    {
      this.(position := SpawnPoint, rotation := Zero, rollAngle := 0.0, isRolling := false)
    }

    /** The effect of one input on the drone, as the input handler dispatches it. */
    function Apply(input: Input, m: MathLib): DroneState {
      match input
      case KeyS => DecreasePropellerSpeed()
      case KeyF => IncreasePropellerSpeed()
      case KeyJ => Roll()
      case KeyPlus => MoveForward(m)
      case KeyMinus => MoveBackward(m)
      case KeyLeft => TurnLeft()
      case KeyRight => TurnRight()
      case KeyUp => TurnUp()
      case KeyDown => TurnDown()
      case KeyD => Reset()
      case Tick(dt) => Update(dt)
    }

    /** The effect of a sequence of inputs, first to last. */
    function Run(inputs: seq<Input>, m: MathLib): DroneState
      decreases |inputs|
    {
      if inputs == [] then this else Apply(inputs[0], m).Run(inputs[1..], m)
    }
  }

  /** The unit vector a drone with the given (pitch, yaw, roll) faces, from
      yaw and pitch only; it faces -z when both are zero. */
  function Heading(m: MathLib, rotation: Vec3): Vec3 {
    Normalize(m, Direction(m, Radians(m, rotation.y), Radians(m, rotation.x)))
  }

  /** The direction for a yaw and a pitch in radians, before normalisation. */
  function Direction(m: MathLib, yaw: real, pitch: real): Vec3 {
    Vec3(-m.sin(yaw) * m.cos(pitch), m.sin(pitch), -m.cos(yaw) * m.cos(pitch))
  }

  /** The state Drone's constructor builds. */
  const Initial := DroneState(SpawnPoint, Zero, 100.0, false, 0.0, 0.0)

  /** The drone object, whose methods update its fields in place. */
  class Drone {
    var position: Vec3
    var rotation: Vec3
    var propellerSpeed: real
    var isRolling: bool
    var rollAngle: real
    var currentPropellerAngle: real

    function State(): DroneState
      reads this
    {
      DroneState(position, rotation, propellerSpeed, isRolling, rollAngle, currentPropellerAngle)
    }

    ghost predicate Valid()
      reads this
    {
      State().Invariant()
    }

    constructor ()
      ensures Valid()
      ensures State() == Initial
    {
      position := SpawnPoint;
      rotation := Zero;
      propellerSpeed := 100.0;
      isRolling := false;
      rollAngle := 0.0;
      currentPropellerAngle := 0.0;
      new;
      InitialInvariant();
    }

    method Update(dt: real)
      requires Valid()
      modifies this
      ensures Valid()
      ensures State() == old(State()).Update(dt)
      ensures dt >= 0.0 && old(State().InRange()) ==> State().InRange()
    {
      UpdatePreservesInvariant(State(), dt);
      if dt >= 0.0 && State().InRange() {
        UpdateKeepsRanges(State(), dt);
      }
      currentPropellerAngle := PropellerPhase(currentPropellerAngle, propellerSpeed, dt);
      if isRolling {
        var rollSpeed := RollSpeed;
        rollAngle := rollAngle + rollSpeed * dt;
        if rollAngle >= 360.0 {
          rollAngle := 0.0;
          isRolling := false;
        }
      }
    }

    method IncreasePropellerSpeed()
      requires Valid()
      modifies this
      ensures Valid()
      ensures State() == old(State()).IncreasePropellerSpeed()
    {
      IncreasePreservesInvariant(State());
      propellerSpeed := propellerSpeed + SpeedStep;
    }

    method DecreasePropellerSpeed()
      requires Valid()
      modifies this
      ensures Valid()
      ensures State() == old(State()).DecreasePropellerSpeed()
    {
      DecreasePreservesInvariant(State());
      if propellerSpeed > SpeedStep {
        propellerSpeed := propellerSpeed - SpeedStep;
      }
    }

    method Roll()
      requires Valid()
      modifies this
      ensures Valid()
      ensures State() == old(State()).Roll()
    {
      isRolling := true;
      rollAngle := 0.0;
    }

    method MoveForward(m: MathLib)
      requires Valid()
      modifies this
      ensures Valid()
      ensures State() == old(State()).MoveForward(m)
    {
      var front := GetFront(m);
      position := Add(position, Scale(front, propellerSpeed * MoveScale));
    }

    method MoveBackward(m: MathLib)
      requires Valid()
      modifies this
      ensures Valid()
      ensures State() == old(State()).MoveBackward(m)
    {
      var front := GetFront(m);
      position := Sub(position, Scale(front, propellerSpeed * MoveScale));
    }

    method TurnLeft()
      requires Valid()
      modifies this
      ensures Valid()
      ensures State() == old(State()).TurnLeft()
    {
      rotation := rotation.(y := rotation.y + TurnStep);
    }

    method TurnRight()
      requires Valid()
      modifies this
      ensures Valid()
      ensures State() == old(State()).TurnRight()
    {
      rotation := rotation.(y := rotation.y - TurnStep);
    }

    method TurnUp()
      requires Valid()
      modifies this
      ensures Valid()
      ensures State() == old(State()).TurnUp()
    {
      rotation := rotation.(x := rotation.x + TurnStep);
    }

    method TurnDown()
      requires Valid()
      modifies this
      ensures Valid()
      ensures State() == old(State()).TurnDown()
    {
      rotation := rotation.(x := rotation.x - TurnStep);
    }

    method Reset()
      requires Valid()
      modifies this
      ensures Valid()
      ensures State() == old(State()).Reset()
    {
      position := SpawnPoint;
      rotation := Zero;
      rollAngle := 0.0;
      isRolling := false;
    }

    method GetPosition() returns (p: Vec3)
      ensures p == State().position
    {
      p := position;
    }

    method GetRotation() returns (r: Vec3)
      ensures r == State().rotation
    {
      r := rotation;
    }

    method GetFront(m: MathLib) returns (f: Vec3)
      ensures f == State().Front(m)
    {
      f := Heading(m, rotation);
    }
  }

  // ---------------------------------------------------------------------------
  // Properties of the drone's operations

  lemma InitialInvariant()
    ensures Initial.Invariant() && Initial.InRange()
  {
    assert 100.0 / 10.0 == 10 as real;
    FloorOfWhole(10);
  }

  /** Stepping down is safe: a multiple of 10 above 10 is at least 20, so one
      step down leaves at least 10 and still a multiple of 10. */
  lemma DecreasePreservesInvariant(s: DroneState)
    requires s.Invariant()
    ensures s.DecreasePropellerSpeed().Invariant()
  {
    if s.propellerSpeed > SpeedStep {
      var k := (s.propellerSpeed / 10.0).Floor;
      assert s.propellerSpeed == 10.0 * k as real;
      assert k >= 2;
      assert (s.propellerSpeed - 10.0) / 10.0 == (k - 1) as real;
      FloorOfWhole(k - 1);
    }
  }

  lemma IncreasePreservesInvariant(s: DroneState)
    requires s.Invariant()
    ensures s.IncreasePropellerSpeed().Invariant()
  {
    var k := (s.propellerSpeed / 10.0).Floor;
    assert (s.propellerSpeed + 10.0) / 10.0 == (k + 1) as real;
    FloorOfWhole(k + 1);
  }

  lemma UpdatePreservesInvariant(s: DroneState, dt: real)
    requires s.Invariant()
    ensures s.Update(dt).Invariant()
  {
  }

  /** With a non-negative time step the propeller phase stays in [0, 360]
      (exactly 360 is not wrapped) and an active roll stays in [0, 360). */
  lemma UpdateKeepsRanges(s: DroneState, dt: real)
    requires s.Invariant() && s.InRange() && dt >= 0.0
    ensures s.Update(dt).InRange()
  {
    assert s.propellerSpeed * dt >= 0.0;
  }

  /** Every input keeps the invariant. */
  lemma InputPreservesInvariant(s: DroneState, input: Input, m: MathLib)
    requires s.Invariant()
    ensures s.Apply(input, m).Invariant()
  {
    match input
    case KeyS => DecreasePreservesInvariant(s);
    case KeyF => IncreasePreservesInvariant(s);
    case Tick(dt) => UpdatePreservesInvariant(s, dt);
    case _ =>
  }

  lemma {:induction false} RunPreservesInvariant(s: DroneState, inputs: seq<Input>, m: MathLib)
    requires s.Invariant()
    ensures s.Run(inputs, m).Invariant()
    decreases |inputs|
  {
    if inputs != [] {
      InputPreservesInvariant(s, inputs[0], m);
      RunPreservesInvariant(s.Apply(inputs[0], m), inputs[1..], m);
    }
  }

  /** From the initial state, whatever keys are pressed and whatever ticks
      elapse, the propeller speed is a multiple of 10 and never below 10. */
  lemma ReachableSpeed(inputs: seq<Input>, m: MathLib)
    ensures Initial.Run(inputs, m).propellerSpeed >= 10.0
    ensures IsMultipleOf(Initial.Run(inputs, m).propellerSpeed, 10.0)
    ensures !Initial.Run(inputs, m).isRolling ==> Initial.Run(inputs, m).rollAngle == 0.0
  {
    InitialInvariant();
    RunPreservesInvariant(Initial, inputs, m);
  }

  /** With non-negative ticks, the phase and roll ranges hold in every reachable state. */
  lemma {:induction false} RunKeepsRanges(s: DroneState, inputs: seq<Input>, m: MathLib)
    requires s.Invariant() && s.InRange()
    requires forall i :: 0 <= i < |inputs| && inputs[i].Tick? ==> inputs[i].dt >= 0.0
    ensures s.Run(inputs, m).InRange()
    decreases |inputs|
  {
    if inputs != [] {
      InputPreservesInvariant(s, inputs[0], m);
      if inputs[0].Tick? {
        UpdateKeepsRanges(s, inputs[0].dt);
      }
      RunKeepsRanges(s.Apply(inputs[0], m), inputs[1..], m);
    }
  }

  /** Increasing then decreasing restores any positive speed. */
  lemma IncreaseThenDecrease(s: DroneState)
    requires s.propellerSpeed > 0.0
    ensures s.IncreasePropellerSpeed().DecreasePropellerSpeed() == s
  {
  }

  function Repeat(input: Input, n: nat): (r: seq<Input>)
    ensures |r| == n && forall i :: 0 <= i < n ==> r[i] == input
  {
    if n == 0 then [] else [input] + Repeat(input, n - 1)
  }

  lemma {:induction false} RunAppend(s: DroneState, a: seq<Input>, b: seq<Input>, m: MathLib)
    ensures s.Run(a + b, m) == s.Run(a, m).Run(b, m)
    decreases |a|
  {
    if a == [] {
      assert a + b == b;
    } else {
      assert (a + b)[0] == a[0];
      assert (a + b)[1..] == a[1..] + b;
      RunAppend(s.Apply(a[0], m), a[1..], b, m);
    }
  }

  /** n presses of F followed by n presses of S give back the speed, and the
      whole state, the drone started with. */
  lemma {:induction false} IncreaseThenDecreaseRepeated(s: DroneState, n: nat, m: MathLib)
    requires s.propellerSpeed > 0.0
    ensures s.Run(Repeat(KeyF, n) + Repeat(KeyS, n), m) == s
    decreases n
  {
    if n > 0 {
      var up := s.IncreasePropellerSpeed();
      var middle := Repeat(KeyF, n - 1) + Repeat(KeyS, n - 1);
      assert Repeat(KeyS, n) == Repeat(KeyS, n - 1) + [KeyS];
      assert Repeat(KeyF, n) + Repeat(KeyS, n) == [KeyF] + middle + [KeyS];
      RunAppend(s, [KeyF] + middle, [KeyS], m);
      RunAppend(s, [KeyF], middle, m);
      IncreaseThenDecreaseRepeated(up, n - 1, m);
      IncreaseThenDecrease(s);
    }
  }

  /** roll() while a roll is in progress restarts it from zero. */
  lemma RollRestarts(s: DroneState)
    requires s.isRolling && s.rollAngle > 0.0
    ensures s.Roll().isRolling && s.Roll().rollAngle == 0.0 && s.Roll().rollAngle != s.rollAngle
  {
  }

  /** reset() leaves the speed and phase alone and restores the pose. */
  lemma ResetKeepsSpeed(s: DroneState)
    ensures s.Reset() == Initial.(propellerSpeed := s.propellerSpeed, currentPropellerAngle := s.currentPropellerAngle)
  {
  }

  /** Each turn changes one angle only, and the opposite turn undoes it. */
  lemma TurnsCancel(s: DroneState)
    ensures s.TurnLeft().TurnRight() == s && s.TurnRight().TurnLeft() == s
    ensures s.TurnUp().TurnDown() == s && s.TurnDown().TurnUp() == s
    ensures s.TurnLeft().rotation.x == s.rotation.x && s.TurnLeft().rotation.z == s.rotation.z
    ensures s.TurnUp().rotation.y == s.rotation.y && s.TurnUp().rotation.z == s.rotation.z
  {
  }

  /** Moving forward then backward returns to the start: the heading and the
      speed, hence the stride, are the same both ways. */
  lemma MovesCancel(s: DroneState, m: MathLib)
    ensures s.MoveForward(m).MoveBackward(m) == s
    ensures s.MoveBackward(m).MoveForward(m) == s
  {
  }

  /** Under sin^2 + cos^2 = 1 and with inversesqrt(1) = 1, the front vector is
      the un-normalised direction itself and has length 1. */
  lemma FrontIsUnit(s: DroneState, m: MathLib)
    requires TrigIdentity(m) && m.inverseSqrt(1.0) == 1.0
    ensures s.Front(m) == Direction(m, Radians(m, s.rotation.y), Radians(m, s.rotation.x))
    ensures Dot(s.Front(m), s.Front(m)) == 1.0
  {
    var yaw, pitch := Radians(m, s.rotation.y), Radians(m, s.rotation.x);
    UnitDirection(m.sin(yaw), m.cos(yaw), m.sin(pitch), m.cos(pitch));
    NormalizeUnit(m, Direction(m, yaw, pitch));
  }

  /** The arithmetic behind FrontIsUnit. */
  lemma UnitDirection(sy: real, cy: real, sp: real, cp: real)
    requires sy * sy + cy * cy == 1.0 && sp * sp + cp * cp == 1.0
    ensures (-sy * cp) * (-sy * cp) + sp * sp + (-cy * cp) * (-cy * cp) == 1.0
  {
    calc {
      (-sy * cp) * (-sy * cp) + sp * sp + (-cy * cp) * (-cy * cp);
      (sy * sy) * (cp * cp) + (cy * cy) * (cp * cp) + sp * sp;
      (sy * sy + cy * cy) * (cp * cp) + sp * sp;
      cp * cp + sp * sp;
    }
  }

  /** With sin 0 = 0, cos 0 = 1 and inversesqrt(1) = 1, a level drone facing
      its initial heading looks down the negative z axis. */
  lemma FrontAtRest(s: DroneState, m: MathLib)
    requires s.rotation.x == 0.0 && s.rotation.y == 0.0
    requires m.sin(0.0) == 0.0 && m.cos(0.0) == 1.0 && m.inverseSqrt(1.0) == 1.0
    ensures s.Front(m) == Vec3(0.0, 0.0, -1.0)
  {
    assert Radians(m, 0.0) == 0.0;
  }

  /** An active roll advancing by RollSpeed * dt per update, while it stays
      below a full turn, has advanced by n times that after n updates. */
  lemma {:induction false} RollProgress(s: DroneState, dt: real, n: nat)
    requires s.isRolling && dt >= 0.0
    requires s.rollAngle + RollSpeed * dt * n as real < 360.0
    ensures s.Updates(dt, n).isRolling
    ensures s.Updates(dt, n).rollAngle == s.rollAngle + RollSpeed * dt * n as real
    decreases n
  {
    if n > 0 {
      StepCount(RollSpeed * dt, n);
      assert s.rollAngle + RollSpeed * dt < 360.0;
      var next := s.Update(dt);
      assert next.isRolling && next.rollAngle == s.rollAngle + RollSpeed * dt;
      RollProgress(next, dt, n - 1);
      assert s.Updates(dt, n) == next.Updates(dt, n - 1);
    }
  }

  /** n steps are one step and n - 1 steps, and no step is negative. */
  lemma StepCount(step: real, n: nat)
    requires step >= 0.0 && n > 0
    ensures step * n as real == step + step * (n - 1) as real
    ensures step * (n - 1) as real >= 0.0
  {
  }

  /** The roll ends on the first update that brings it to a full turn, and
      leaves no roll offset behind. */
  lemma RollCompletes(s: DroneState, dt: real, n: nat)
    requires s.isRolling && dt >= 0.0 && n > 0
    requires s.rollAngle + RollSpeed * dt * (n - 1) as real < 360.0
    requires s.rollAngle + RollSpeed * dt * n as real >= 360.0
    ensures !s.Updates(dt, n).isRolling && s.Updates(dt, n).rollAngle == 0.0
  {
    UpdatesSplit(s, dt, n - 1);
    RollProgress(s, dt, n - 1);
    StepCount(RollSpeed * dt, n);
  }

  lemma {:induction false} UpdatesSplit(s: DroneState, dt: real, n: nat)
    ensures s.Updates(dt, n + 1) == s.Updates(dt, n).Update(dt)
    decreases n
  {
    if n > 0 {
      UpdatesSplit(s.Update(dt), dt, n - 1);
    }
  }
}
