/**
 * The drone store (`client/src/lib/stores/useDrone.tsx`): joystick inputs, the
 * mode1/mode2 stick-to-channel mapping, and the per-frame flight dynamics step
 * `updatePhysics` (dead-zone/auto-level attitude, tilt clamp, tilt thrust,
 * exponential drag, ground contact, derived telemetry).
 */
module DroneStore {
  import opened RealMath

  datatype ControlMode = Mode1 | Mode2

  /** One joystick's deflection, each axis nominally in [-1, 1]. */
  datatype Stick = Stick(x: real, y: real)

  /** The four logical control channels of the quadcopter. */
  datatype Channels = Channels(throttle: real, yaw: real, pitch: real, roll: real)

  /** Kinematic state owned by the store and replaced by each physics step. */
  datatype Kinematics = Kinematics(position: Vec3, rotation: Vec3, velocity: Vec3, angularVelocity: Vec3)

  /** The derived read-outs stored next to the kinematics. */
  datatype Telemetry = Telemetry(altitude: real, speed: real, heading: real)

  datatype StepResult = StepResult(kin: Kinematics, telemetry: Telemetry)

  const THROTTLE_POWER := 20.0
  const HOVER_BASELINE := 0.5
  const YAW_SPEED := 2.0
  const PITCH_SPEED := 3.0
  const ROLL_SPEED := 3.0
  const GRAVITY := 9.8
  const DRAG := 5.0
  const AUTO_LEVEL_SPEED := 3.0
  const TILT_FORCE := 12.0
  const VERTICAL_DRAG := 2.0
  const GROUND_SKID := 0.3
  const DEAD_ZONE := 0.05

  const INITIAL_POSITION := Vec3(0.0, 5.0, 0.0)

  /** `Math.PI / 4`, the largest pitch or roll angle the step allows. */
  function MaxTilt(m: Transcendentals): (r: real)
    requires Sound(m)
    ensures 0.78 < r < 0.79
  {
    m.pi / 4.0
  }

  function Toggled(mode: ControlMode): (r: ControlMode)
    ensures r != mode
  {
    if mode == Mode1 then Mode2 else Mode1
  }

  lemma ToggleInvolution(mode: ControlMode)
    ensures Toggled(Toggled(mode)) == mode
  {
  }

  /** Which stick axis drives which channel, by control mode. */
  function MapSticks(mode: ControlMode, left: Stick, right: Stick): (c: Channels)
    ensures c.throttle == left.y && c.pitch == right.y
    ensures mode == Mode1 ==> c.yaw == left.x && c.roll == right.x
    ensures mode == Mode2 ==> c.roll == left.x && c.yaw == right.x
  {
    match mode
    case Mode1 => Channels(left.y, left.x, right.y, right.x)
    case Mode2 => Channels(left.y, right.x, right.y, left.x)
  }

  /** Toggling the control mode exchanges the yaw and roll channels and nothing else. */
  lemma ToggleSwapsYawAndRoll(mode: ControlMode, left: Stick, right: Stick)
    ensures var c := MapSticks(mode, left, right);
            MapSticks(Toggled(mode), left, right) == Channels(c.throttle, c.roll, c.pitch, c.yaw)
  {
  }

  // ---------------------------------------------------------------------------
  // The physics step as a composition of stages, in the order the store runs them.

  /**
   * Vertical thrust around the hover baseline, minus gravity. Only the
   * vertical speed changes; over the stick's range the acceleration lies in
   * [-9.8, 10.2], and the centred stick climbs slightly (10 against 9.8).
   */
  function Thrust(v: Vec3, throttle: real, delta: real): (r: Vec3)
    ensures r.x == v.x && r.z == v.z
    ensures -1.0 <= throttle <= 1.0 && delta >= 0.0 ==>
              v.y - GRAVITY * delta <= r.y <= v.y + (THROTTLE_POWER - GRAVITY) * delta
    ensures throttle == 0.0 ==> r.y == v.y + (HOVER_BASELINE * THROTTLE_POWER - GRAVITY) * delta
  {
    var effectiveThrottle := HOVER_BASELINE + throttle * (1.0 - HOVER_BASELINE);
    if -1.0 <= throttle <= 1.0 && delta >= 0.0 then
      NonnegativeProduct(effectiveThrottle * THROTTLE_POWER, delta);
      NonnegativeProduct((1.0 - effectiveThrottle) * THROTTLE_POWER, delta);
      v.(y := v.y + (effectiveThrottle * THROTTLE_POWER - GRAVITY) * delta)
    else
      v.(y := v.y + (effectiveThrottle * THROTTLE_POWER - GRAVITY) * delta)
  }

  /** One explicit Euler step: `value += rate * delta`. */
  function Euler(value: real, rate: real, delta: real): real
  {
    value + rate * delta
  }

  function InputMagnitude(c: Channels, m: Transcendentals): real
  {
    Sqrt(m, Sq(c.pitch) + Sq(c.roll) + Sq(c.yaw))
  }

  /** Whether the attitude sticks are outside the 0.05 dead zone. */
  predicate HasInput(c: Channels, m: Transcendentals)
  {
    InputMagnitude(c, m) > DEAD_ZONE
  }

  /** The dead zone is a test on the sum of the squared channel values. */
  lemma HasInputIff(c: Channels, m: Transcendentals)
    requires Sound(m)
    ensures HasInput(c, m) <==> Sq(c.pitch) + Sq(c.roll) + Sq(c.yaw) > 0.0025
  {
    SqrtAbove(m, Sq(c.pitch) + Sq(c.roll) + Sq(c.yaw), 0.05);
  }

  /**
   * Angular velocity and rotation after the attitude stage: inside the dead zone
   * pitch and roll relax toward level, outside they integrate the stick rates;
   * yaw always integrates.
   */
  function Attitude(rot: Vec3, av: Vec3, c: Channels, delta: real, m: Transcendentals): (Vec3, Vec3)
  {
    var (rot1, av1) :=
      if HasInput(c, m) then
        var av' := Vec3(c.pitch * PITCH_SPEED, c.yaw * YAW_SPEED, c.roll * ROLL_SPEED);
        var r1 := rot.(x := Euler(rot.x, av'.x, delta));
        (r1.(z := Euler(r1.z, av'.z, delta)), av')
      else
        var r1 := rot.(x := Lerp(rot.x, 0.0, AUTO_LEVEL_SPEED * delta));
        (r1.(z := Lerp(r1.z, 0.0, AUTO_LEVEL_SPEED * delta)), Zero);
    (rot1.(y := Euler(rot1.y, c.yaw * YAW_SPEED, delta)), av1)
  }

  function ClampTilt(rot: Vec3, m: Transcendentals): (r: Vec3)
    requires Sound(m)
    ensures -MaxTilt(m) <= r.x <= MaxTilt(m) && -MaxTilt(m) <= r.z <= MaxTilt(m)
    ensures r.y == rot.y
  {
    var r1 := rot.(x := Clamp(rot.x, -MaxTilt(m), MaxTilt(m)));
    r1.(z := Clamp(r1.z, -MaxTilt(m), MaxTilt(m)))
  }

  /** Horizontal acceleration from pitch and roll, projected through the yaw heading. */
  function TiltThrust(v: Vec3, rot: Vec3, delta: real, m: Transcendentals): (r: Vec3)
    ensures r.y == v.y
    ensures rot.x == 0.0 && rot.z == 0.0 ==> r == v
  {
    var cosY := Cos(m, rot.y);
    var sinY := Sin(m, rot.y);
    var v1 := v.(x := v.x + (-rot.z * cosY - rot.x * sinY) * TILT_FORCE * delta);
    v1.(z := v1.z + (-rot.z * sinY + rot.x * cosY) * TILT_FORCE * delta)
  }

  /**
   * Exponential drag, 5 per second horizontally and 2 vertically: over a
   * step of nonnegative length no velocity component grows in magnitude or
   * changes sign, and a zero-length step leaves the velocity alone.
   */
  function Drag(v: Vec3, delta: real, m: Transcendentals): (r: Vec3)
    requires Sound(m)
    ensures delta >= 0.0 ==>
              && Abs(r.x) <= Abs(v.x) && Abs(r.y) <= Abs(v.y) && Abs(r.z) <= Abs(v.z)
              && r.x * v.x >= 0.0 && r.y * v.y >= 0.0 && r.z * v.z >= 0.0
    ensures delta == 0.0 ==> r == v
  {
    var dragFactor := Exp(m, -DRAG * delta);
    var verticalFactor := Exp(m, -VERTICAL_DRAG * delta);
    if delta >= 0.0 then
      Damped(v.x, dragFactor);
      Damped(v.z, dragFactor);
      Damped(v.y, verticalFactor);
      Vec3(v.x * dragFactor, v.y * verticalFactor, v.z * dragFactor)
    else
      Vec3(v.x * dragFactor, v.y * verticalFactor, v.z * dragFactor)
  }

  /** Below ground: stand on the ground, stop vertically, keep 0.3 of the horizontal speed. */
  function GroundContact(p: Vec3, v: Vec3): (Vec3, Vec3)
  {
    if p.y < 0.0 then
      var v1 := v.(y := 0.0);
      var v2 := v1.(x := v1.x * GROUND_SKID);
      (p.(y := 0.0), v2.(z := v2.z * GROUND_SKID))
    else
      (p, v)
  }

  /** `q` truncated toward zero, as JavaScript's `%` uses it. */
  function Trunc(q: real): (r: int)
    ensures q >= 0.0 ==> r as real <= q < r as real + 1.0
    ensures q < 0.0 ==> r as real - 1.0 < q <= r as real
  {
    if q >= 0.0 then q.Floor else -((-q).Floor)
  }

  /** JavaScript's `n % 360`: the remainder takes the sign of the dividend. */
  function Rem360(n: real): (r: real)
    ensures n >= 0.0 ==> 0.0 <= r < 360.0
    ensures n < 0.0 ==> -360.0 < r <= 0.0
    ensures Trunc(n / 360.0) as real * 360.0 + r == n
  {
    n - Trunc(n / 360.0) as real * 360.0
  }

  /** `((yaw * 180 / PI) + 360) % 360`, with yaw in radians. */
  function Heading(yaw: real, m: Transcendentals): (h: real)
    requires Sound(m)
    ensures -360.0 < h < 360.0
    ensures yaw * 180.0 / m.pi + 360.0 >= 0.0 ==> 0.0 <= h < 360.0
  {
    Rem360(yaw * 180.0 / m.pi + 360.0)
  }

  /**
   * The kinematics after thrust, wind, attitude, tilt clamp, tilt thrust, drag
   * and position integration, before ground contact.
   */
  function Airborne(k: Kinematics, c: Channels, delta: real, wind: Vec3, m: Transcendentals): (a: Kinematics)
    requires Sound(m)
    ensures -MaxTilt(m) <= a.rotation.x <= MaxTilt(m) && -MaxTilt(m) <= a.rotation.z <= MaxTilt(m)
    ensures a.rotation.y == k.rotation.y + c.yaw * YAW_SPEED * delta
    ensures a.position == k.position.Plus(a.velocity.Scale(delta))
  {
    var v1 := Thrust(k.velocity, c.throttle, delta);
    var v2 := v1.Plus(wind.Scale(delta));
    var att := Attitude(k.rotation, k.angularVelocity, c, delta, m);
    var rot := ClampTilt(att.0, m);
    var v3 := TiltThrust(v2, rot, delta, m);
    var v4 := Drag(v3, delta, m);
    Kinematics(k.position.Plus(v4.Scale(delta)), rot, v4, att.1)
  }

  /**
   * Ground contact: below ground the drone stands at y = 0 with no vertical
   * speed and keeps 0.3 of its horizontal speed; otherwise nothing changes.
   */
  function Land(a: Kinematics): (r: Kinematics)
    ensures r.position.y >= 0.0
    ensures r.rotation == a.rotation && r.angularVelocity == a.angularVelocity
    ensures a.position.y < 0.0 ==>
              && r.position == a.position.(y := 0.0)
              && r.velocity == Vec3(a.velocity.x * GROUND_SKID, 0.0, a.velocity.z * GROUND_SKID)
    ensures a.position.y >= 0.0 ==> r == a
  {
    var (p, v) := GroundContact(a.position, a.velocity);
    a.(position := p, velocity := v)
  }

  /** One `updatePhysics(delta, windForce)` call on kinematics `k` with channels `c`. */
  function Step(k: Kinematics, c: Channels, delta: real, wind: Vec3, m: Transcendentals): (r: StepResult)
    requires Sound(m)
    ensures -MaxTilt(m) <= r.kin.rotation.x <= MaxTilt(m)
    ensures -MaxTilt(m) <= r.kin.rotation.z <= MaxTilt(m)
    ensures r.kin.rotation.y == k.rotation.y + c.yaw * YAW_SPEED * delta
    ensures r.kin.position.y >= 0.0
    ensures r.telemetry.altitude == r.kin.position.y
    ensures r.telemetry.speed >= 0.0
    ensures -360.0 < r.telemetry.heading < 360.0
  {
    Observe(Land(Airborne(k, c, delta, wind, m)), m)
  }

  /** The kinematics with the telemetry derived from them: altitude, horizontal speed, heading. */
  function Observe(l: Kinematics, m: Transcendentals): (r: StepResult)
    requires Sound(m)
    ensures r.kin == l && r.telemetry.altitude == l.position.y
    ensures r.telemetry.speed >= 0.0 && -360.0 < r.telemetry.heading < 360.0
  {
    var v := l.velocity;
    StepResult(l, Telemetry(l.position.y, Sqrt(m, Sq(v.x) + Sq(v.z)), Heading(l.rotation.y, m)))
  }

  /**
   * The dead zone: outside it the angular velocity is (3 pitch, 2 yaw, 3 roll),
   * inside it is zero.
   */
  lemma DeadZoneAngularVelocity(k: Kinematics, c: Channels, delta: real, wind: Vec3, m: Transcendentals)
    requires Sound(m)
    ensures var av := Step(k, c, delta, wind, m).kin.angularVelocity;
            && (Sq(c.pitch) + Sq(c.roll) + Sq(c.yaw) > 0.0025 ==>
                  av == Vec3(c.pitch * PITCH_SPEED, c.yaw * YAW_SPEED, c.roll * ROLL_SPEED))
            && (Sq(c.pitch) + Sq(c.roll) + Sq(c.yaw) <= 0.0025 ==> av == Zero)
  {
    HasInputIff(c, m);
  }

  /**
   * A yaw input alone counts as input: pitch and roll then integrate their
   * (zero) rates instead of auto-levelling, so they change only by the clamp.
   */
  lemma YawSuppressesAutoLevel(k: Kinematics, c: Channels, delta: real, wind: Vec3, m: Transcendentals)
    requires Sound(m)
    requires c.pitch == 0.0 && c.roll == 0.0 && Abs(c.yaw) > DEAD_ZONE
    ensures var r := Step(k, c, delta, wind, m).kin.rotation;
            && r.x == Clamp(k.rotation.x, -MaxTilt(m), MaxTilt(m))
            && r.z == Clamp(k.rotation.z, -MaxTilt(m), MaxTilt(m))
  {
    SquareMonotone(DEAD_ZONE, Abs(c.yaw));
    assert Sq(c.yaw) == Abs(c.yaw) * Abs(c.yaw);
    HasInputIff(c, m);
  }

  /** Scaling toward zero by a factor in [0, 1] never grows a magnitude. */
  lemma ShrinkToward0(x: real, t: real)
    requires 0.0 <= t <= 1.0
    ensures Abs(Lerp(x, 0.0, t)) <= Abs(x)
  {
    assert Lerp(x, 0.0, t) == (1.0 - t) * x;
    if x >= 0.0 {
      FactorBetween(1.0 - t, x);
    } else {
      FactorBetween(1.0 - t, -x);
      assert (1.0 - t) * -x == -((1.0 - t) * x);
    }
  }

  lemma FactorBetween(s: real, x: real)
    requires 0.0 <= s <= 1.0 && x >= 0.0
    ensures 0.0 <= s * x <= x
  {
  }

  /** Clamping to a symmetric interval never grows a magnitude. */
  lemma ClampShrinks(v: real, b: real)
    requires b >= 0.0
    ensures Abs(Clamp(v, -b, b)) <= Abs(v)
  {
  }

  /**
   * Auto-level with no stick input and 0 <= 3 delta <= 1 never increases the
   * magnitude of pitch or roll.
   */
  lemma AutoLevelNonIncreasing(k: Kinematics, c: Channels, delta: real, wind: Vec3, m: Transcendentals)
    requires Sound(m)
    requires Sq(c.pitch) + Sq(c.roll) + Sq(c.yaw) <= 0.0025
    requires 0.0 <= AUTO_LEVEL_SPEED * delta <= 1.0
    ensures var r := Step(k, c, delta, wind, m).kin.rotation;
            Abs(r.x) <= Abs(k.rotation.x) && Abs(r.z) <= Abs(k.rotation.z)
  {
    HasInputIff(c, m);
    ShrinkToward0(k.rotation.x, AUTO_LEVEL_SPEED * delta);
    ShrinkToward0(k.rotation.z, AUTO_LEVEL_SPEED * delta);
    ClampShrinks(Lerp(k.rotation.x, 0.0, AUTO_LEVEL_SPEED * delta), MaxTilt(m));
    ClampShrinks(Lerp(k.rotation.z, 0.0, AUTO_LEVEL_SPEED * delta), MaxTilt(m));
  }

  /**
   * A step of zero duration leaves a level-enough, above-ground state's
   * position, rotation and velocity as they were; the angular velocity is
   * still overwritten from the sticks.
   */
  lemma ZeroDeltaKeepsPose(k: Kinematics, c: Channels, wind: Vec3, m: Transcendentals)
    requires Sound(m)
    requires -MaxTilt(m) <= k.rotation.x <= MaxTilt(m) && -MaxTilt(m) <= k.rotation.z <= MaxTilt(m)
    requires k.position.y >= 0.0
    ensures var r := Step(k, c, 0.0, wind, m).kin;
            && r.position == k.position && r.rotation == k.rotation && r.velocity == k.velocity
            && r.angularVelocity == (if HasInput(c, m) then Vec3(c.pitch * PITCH_SPEED, c.yaw * YAW_SPEED, c.roll * ROLL_SPEED) else Zero)
  {
    assert -DRAG * 0.0 == 0.0 && -VERTICAL_DRAG * 0.0 == 0.0;
  }

  /** The store: kinematics, joystick inputs, control mode and telemetry. */
  class Drone {
    var position: Vec3
    var rotation: Vec3
    var velocity: Vec3
    var angularVelocity: Vec3
    var leftJoystick: Stick
    var rightJoystick: Stick
    var controlMode: ControlMode
    var altitude: real
    var speed: real
    var heading: real

    function Kin(): Kinematics
      reads this
    {
      Kinematics(position, rotation, velocity, angularVelocity)
    }

    function Channels(): Channels
      reads this
    {
      MapSticks(controlMode, leftJoystick, rightJoystick)
    }

    /** The store's initial state; the control mode starts as mode2. */
    constructor ()
      ensures position == INITIAL_POSITION && rotation == Zero
      ensures velocity == Zero && angularVelocity == Zero
      ensures leftJoystick == Stick(0.0, 0.0) && rightJoystick == Stick(0.0, 0.0)
      ensures controlMode == Mode2
      ensures altitude == 5.0 && speed == 0.0 && heading == 0.0
    {
      position := INITIAL_POSITION;
      rotation := Zero;
      velocity := Zero;
      angularVelocity := Zero;
      leftJoystick := Stick(0.0, 0.0);
      rightJoystick := Stick(0.0, 0.0);
      controlMode := Mode2;
      altitude := 5.0;
      speed := 0.0;
      heading := 0.0;
    }

    method SetLeftJoystick(input: Stick)
      modifies this`leftJoystick
      ensures leftJoystick == input
    {
      leftJoystick := input;
    }

    method SetRightJoystick(input: Stick)
      modifies this`rightJoystick
      ensures rightJoystick == input
    {
      rightJoystick := input;
    }

    method ToggleControlMode()
      modifies this`controlMode
      ensures controlMode == Toggled(old(controlMode))
    {
      controlMode := if controlMode == Mode1 then Mode2 else Mode1;
    }

    /** Back to the initial pose, sticks centred; the control mode is kept. */
    method Reset()
      modifies this`position, this`rotation, this`velocity, this`angularVelocity,
               this`leftJoystick, this`rightJoystick, this`altitude, this`speed, this`heading
      ensures position == INITIAL_POSITION && rotation == Zero
      ensures velocity == Zero && angularVelocity == Zero
      ensures leftJoystick == Stick(0.0, 0.0) && rightJoystick == Stick(0.0, 0.0)
      ensures altitude == 5.0 && speed == 0.0 && heading == 0.0
      ensures controlMode == old(controlMode)
    {
      position := INITIAL_POSITION;
      rotation := Zero;
      velocity := Zero;
      angularVelocity := Zero;
      leftJoystick := Stick(0.0, 0.0);
      rightJoystick := Stick(0.0, 0.0);
      altitude := 5.0;
      speed := 0.0;
      heading := 0.0;
    }

    /**
     * `updatePhysics(delta, windForce)`: the physics step on copies of the
     * vectors, then the new kinematics and telemetry stored together. Callers
     * that pass no wind pass `Zero`.
     */
    method UpdatePhysics(delta: real, windForce: Vec3, m: Transcendentals)
      requires Sound(m)
      modifies this`position, this`rotation, this`velocity, this`angularVelocity,
               this`altitude, this`speed, this`heading
      ensures StepResult(Kin(), Telemetry(altitude, speed, heading))
              == Step(old(Kin()), old(Channels()), delta, windForce, m)
      ensures -MaxTilt(m) <= rotation.x <= MaxTilt(m) && -MaxTilt(m) <= rotation.z <= MaxTilt(m)
      ensures position.y >= 0.0 && altitude == position.y
    {
      var c := MapSticks(controlMode, leftJoystick, rightJoystick);
      var next := AdvanceKinematics(Kin(), c, delta, windForce, m);
      var observed := Observe(next, m);
      position := next.position;
      rotation := next.rotation;
      velocity := next.velocity;
      angularVelocity := next.angularVelocity;
      altitude := observed.telemetry.altitude;
      speed := observed.telemetry.speed;
      heading := observed.telemetry.heading;
    }
  }

  /**
   * The attitude block of `updatePhysics` on local copies of rotation and
   * angular velocity.
   */
  method UpdateAttitude(rotation: Vec3, angularVelocity: Vec3, c: Channels, delta: real, m: Transcendentals)
    returns (newRotation: Vec3, newAngularVelocity: Vec3)
    requires Sound(m)
    ensures (newRotation, newAngularVelocity) == Attitude(rotation, angularVelocity, c, delta, m)
  {
    newRotation := rotation;
    newAngularVelocity := angularVelocity;
    var inputMagnitude := Sqrt(m, Sq(c.pitch) + Sq(c.roll) + Sq(c.yaw));
    if inputMagnitude > DEAD_ZONE {
      assert HasInput(c, m);
      newAngularVelocity := Vec3(c.pitch * PITCH_SPEED, c.yaw * YAW_SPEED, c.roll * ROLL_SPEED);
      newRotation := newRotation.(x := Euler(newRotation.x, newAngularVelocity.x, delta));
      newRotation := newRotation.(z := Euler(newRotation.z, newAngularVelocity.z, delta));
    } else {
      assert !HasInput(c, m);
      newRotation := newRotation.(x := Lerp(newRotation.x, 0.0, AUTO_LEVEL_SPEED * delta));
      newRotation := newRotation.(z := Lerp(newRotation.z, 0.0, AUTO_LEVEL_SPEED * delta));
      newAngularVelocity := Zero;
    }
    newRotation := newRotation.(y := Euler(newRotation.y, c.yaw * YAW_SPEED, delta));
  }

  /**
   * The body of `updatePhysics` up to the telemetry: each block updates the
   * local copies in the order the store runs them.
   */
  method AdvanceKinematics(k: Kinematics, c: Channels, delta: real, windForce: Vec3, m: Transcendentals)
    returns (next: Kinematics)
    requires Sound(m)
    ensures next == Land(Airborne(k, c, delta, windForce, m))
  {
    var newVelocity := Thrust(k.velocity, c.throttle, delta);
    newVelocity := newVelocity.Plus(windForce.Scale(delta));

    var newRotation, newAngularVelocity := UpdateAttitude(k.rotation, k.angularVelocity, c, delta, m);

    newRotation := ClampTilt(newRotation, m);
    newVelocity := TiltThrust(newVelocity, newRotation, delta, m);
    newVelocity := Drag(newVelocity, delta, m);

    var newPosition := k.position.Plus(newVelocity.Scale(delta));
    if newPosition.y < 0.0 {
      newPosition := newPosition.(y := 0.0);
      newVelocity := newVelocity.(y := 0.0);
      newVelocity := newVelocity.(x := newVelocity.x * GROUND_SKID);
      newVelocity := newVelocity.(z := newVelocity.z * GROUND_SKID);
    }
    next := Kinematics(newPosition, newRotation, newVelocity, newAngularVelocity);
  }
}
