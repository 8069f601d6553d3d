/** The bicycle-style car of the native preview (vehicle.cpp): one physics step
  * clamps the driver's inputs, updates the speed with engine, brake and rolling
  * friction, turns the heading through the steering angle and advances the
  * position along the new heading.
  *
  * `Car` is a C++ struct held by value inside the renderer; `step` updates it
  * through a reference, which here is a method returning the updated record. */
module Vehicle {
  import opened Geometry

  const MaxSteer: real := 0.5
  const MaxSpeed: real := 60.0
  const MaxReverseSpeed: real := -10.0
  const EngineAcceleration: real := 12.0
  const BrakeDeceleration: real := 25.0
  const RollingFriction: real := 3.0
  /** The factor rolling friction is scaled by in `step`. */
  const FrictionScale: real := 0.02
  /** Below this steering angle (in radians) the car drives straight. */
  const SteerDeadZone: real := 0.0001

  datatype Car = Car(steer: real, throttle: real, brake: real, heading: real,
                     speed: real, pos: Vec2, wheelbase: real)

  /** A default-constructed Car. */
  const DefaultCar: Car := Car(0.0, 0.0, 0.0, 0.0, 0.0, Vec2(0.0, 0.0), 2.6)

  /** The acceleration of one step, from the clamped throttle and brake and the speed
    * clamped to +-60. */
  function Acceleration(car: Car): real {
    Clamp(car.throttle, 0.0, 1.0) * EngineAcceleration - Clamp(car.brake, 0.0, 1.0) * BrakeDeceleration
      - Clamp(car.speed, -MaxSpeed, MaxSpeed) * RollingFriction * FrictionScale
  }

  /** The speed after accelerating for `dt`, before the clamp. */
  function Accelerated(car: Car, dt: real): real {
    car.speed + Acceleration(car) * dt
  }

  /** The new speed, clamped to [-10, 60]. */
  function NextSpeed(car: Car, dt: real): real {
    Clamp(Accelerated(car, dt), MaxReverseSpeed, MaxSpeed)
  }

  /** The heading after turning at speed / (wheelbase / tan(steer)) for `dt`, or the
    * old heading inside the steering dead zone. */
  function NextHeading(car: Car, dt: real, m: Math): real
    requires Lawful(m) && car.wheelbase != 0.0
  {
    var steer := Clamp(car.steer, -MaxSteer, MaxSteer);
    if Abs(steer) > SteerDeadZone then
      assert TanLaw(m, steer);
      car.heading + NextSpeed(car, dt) / (car.wheelbase / m.tan(steer)) * dt
    else car.heading
  }

  /** The state after one step of `dt` seconds. */
  function Stepped(car: Car, dt: real, m: Math): Car
    requires Lawful(m) && car.wheelbase != 0.0
  {
    if dt <= 0.0 then car
    else
      var speed, heading := NextSpeed(car, dt), NextHeading(car, dt, m);
      var forward := Vec2(m.cos(heading), m.sin(heading));
      car.(speed := speed, heading := heading, pos := car.pos.Plus(forward.Times(speed * dt)))
  }

  /** step: a non-positive `dt` leaves the car alone; otherwise speed, heading and
    * position are updated in that order. */
  method Step(car: Car, dt: real, m: Math) returns (next: Car)
    requires Lawful(m) && car.wheelbase != 0.0
    ensures next == Stepped(car, dt, m)
  {
    if dt <= 0.0 {
      return car;
    }
    var steer := Clamp(car.steer, -MaxSteer, MaxSteer);
    var throttle := Clamp(car.throttle, 0.0, 1.0);
    var brake := Clamp(car.brake, 0.0, 1.0);

    var acceleration := throttle * EngineAcceleration - brake * BrakeDeceleration;
    acceleration := acceleration - Clamp(car.speed, -MaxSpeed, MaxSpeed) * RollingFriction * FrictionScale;
    assert acceleration == Acceleration(car);

    var speed := car.speed + acceleration * dt;
    assert speed == Accelerated(car, dt);
    speed := Clamp(speed, MaxReverseSpeed, MaxSpeed);

    var angularVelocity := 0.0;
    if Abs(steer) > SteerDeadZone {
      assert TanLaw(m, steer);
      var turnRadius := car.wheelbase / m.tan(steer);
      angularVelocity := speed / turnRadius;
    }
    var heading := car.heading + angularVelocity * dt;
    assert heading == NextHeading(car, dt, m);

    var forward := Vec2(m.cos(heading), m.sin(heading));
    next := car.(speed := speed, heading := heading, pos := car.pos.Plus(forward.Times(speed * dt)));
  }

  /** What a step keeps and bounds: a non-positive `dt` changes nothing; the inputs and
    * the wheelbase are only read; the speed ends in [-10, 60]; inside the dead zone
    * the heading is kept; and the car moves exactly |speed * dt| along its heading. */
  lemma StepProperties(car: Car, dt: real, m: Math)
    requires Lawful(m) && car.wheelbase != 0.0
    ensures dt <= 0.0 ==> Stepped(car, dt, m) == car
    ensures var next := Stepped(car, dt, m);
      && next.steer == car.steer && next.throttle == car.throttle
      && next.brake == car.brake && next.wheelbase == car.wheelbase
    ensures 0.0 < dt ==> MaxReverseSpeed <= Stepped(car, dt, m).speed <= MaxSpeed
    ensures Abs(Clamp(car.steer, -MaxSteer, MaxSteer)) <= SteerDeadZone ==> Stepped(car, dt, m).heading == car.heading
    ensures 0.0 < dt ==> Distance(Stepped(car, dt, m).pos, car.pos, m) == Abs(Stepped(car, dt, m).speed * dt)
  {
    var next := Stepped(car, dt, m);
    if 0.0 < dt {
      var heading := next.heading;
      var k := next.speed * dt;
      var forward := Vec2(m.cos(heading), m.sin(heading));
      assert next.pos.Minus(car.pos) == forward.Times(k);
      assert CircleLaw(m, heading);
      UnitTimes(m, forward, k);
    }
  }

  /** With neither throttle nor brake and a step of at most 1/0.06 seconds, rolling
    * friction slows a forward-moving car without making it reverse. */
  lemma CoastingSlows(car: Car, dt: real, m: Math)
    requires Lawful(m) && car.wheelbase != 0.0
    requires car.throttle <= 0.0 && car.brake <= 0.0
    requires 0.0 < car.speed <= MaxSpeed && 0.0 < dt && dt * RollingFriction * FrictionScale <= 1.0
    ensures 0.0 <= Stepped(car, dt, m).speed <= car.speed
  {
    var f := RollingFriction * FrictionScale;
    assert Clamp(car.throttle, 0.0, 1.0) == 0.0 && Clamp(car.brake, 0.0, 1.0) == 0.0;
    assert Acceleration(car) == -(car.speed * f);
    var q := 1.0 - f * dt;
    assert 0.0 <= q <= 1.0;
    var moved := car.speed * q;
    assert car.speed + Acceleration(car) * dt == moved;
    MulLeLeft(car.speed, 0.0, q);
    MulLeLeft(car.speed, q, 1.0);
    assert 0.0 <= moved <= car.speed;
    assert NextSpeed(car, dt) == moved;
  }
}
