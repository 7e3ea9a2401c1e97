/**
 * The scalar-speed car of gameplay/Car.c: speed is a Q16.8 magnitude and
 * the direction of travel is the 9-bit facing angle.
 *
 * The C functions all return early on a NULL car; a Dafny reference is never
 * null, so that path has no counterpart here.
 */
module CarPhysics {
  import opened FixedMath
  import opened GameTypes

  /** Every field of a Car, as a value (the sprite pointer is left out). */
  datatype CarValue = CarValue(
    position: Vec2, speed: int, maxSpeed: int, accelRate: int, friction: int,
    angle512: int, lap: int, rank: int, lastCheckpoint: int, item: int, carname: seq<char>)

  /** clamp_friction: a friction multiplier limited to [0, FIXED_ONE]. */
  function ClampFriction(friction: int): (r: int)
    ensures 0 <= r <= FIXED_ONE
    ensures 0 <= friction <= FIXED_ONE ==> r == friction
    ensures friction < 0 ==> r == 0
    ensures friction > FIXED_ONE ==> r == FIXED_ONE
  {
    if friction < 0 then 0 else if friction > FIXED_ONE then FIXED_ONE else friction
  }

  /** copy_name: at most CAR_NAME_MAX_LENGTH characters; a NULL name (None) gives "". */
  function CopyName(name: Option<seq<char>>): (r: seq<char>)
    ensures |r| <= CAR_NAME_MAX_LENGTH
    ensures name.None? ==> r == []
    ensures name.Some? ==> r <= name.value
    ensures name.Some? && |name.value| <= CAR_NAME_MAX_LENGTH ==> r == name.value
  {
    if name.None? then []
    else if |name.value| <= CAR_NAME_MAX_LENGTH then name.value
    else name.value[..CAR_NAME_MAX_LENGTH]
  }

  /** The speed cap shared by Car_Accelerate, Car_Update and apply_velocity. */
  function CapSpeed(speed: int, maxSpeed: int): (r: int)
    ensures maxSpeed > 0 ==> r <= maxSpeed
    ensures r <= speed
    ensures maxSpeed <= 0 || speed <= maxSpeed ==> r == speed
  {
    if maxSpeed > 0 && speed > maxSpeed then maxSpeed else speed
  }

  /**
   * The speed after one Car_Update: friction applied, tiny speeds snapped
   * to zero, then the cap.
   */
  function UpdatedSpeed(speed: int, maxSpeed: int, friction: int): int
  {
    var s := FixedMul(speed, ClampFriction(friction));
    var snapped := if s <= MIN_SPEED_THRESHOLD then 0 else s;
    CapSpeed(snapped, maxSpeed)
  }

  /** A friction factor of at most one never makes a non-negative speed grow or turn negative. */
  lemma {:induction false} FrictionSlows(speed: int, f: int)
    requires speed >= 0 && 0 <= f <= FIXED_ONE
    ensures 0 <= FixedMul(speed, f) <= speed
  {
    var p := speed * f;
    assert 0 <= p by {
      assert speed >= 0 && f >= 0;
    }
    assert p <= speed * FIXED_ONE by {
      assert speed * (FIXED_ONE - f) >= 0;
    }
    assert p / FIXED_ONE <= (speed * FIXED_ONE) / FIXED_ONE;
  }

  /**
   * Friction never speeds a car up: a non-negative speed stays non-negative,
   * does not grow, and is either 0 or above the snap threshold unless the
   * cap is lower still.
   */
  lemma {:induction false} UpdatedSpeedBounds(speed: int, maxSpeed: int, friction: int)
    requires speed >= 0
    ensures 0 <= UpdatedSpeed(speed, maxSpeed, friction) <= speed
    ensures maxSpeed > MIN_SPEED_THRESHOLD ==>
      UpdatedSpeed(speed, maxSpeed, friction) == 0 || UpdatedSpeed(speed, maxSpeed, friction) > MIN_SPEED_THRESHOLD
    ensures maxSpeed > 0 ==> UpdatedSpeed(speed, maxSpeed, friction) <= maxSpeed
  {
    FrictionSlows(speed, ClampFriction(friction));
  }

  /** build_velocity: zero when stopped, otherwise the facing unit vector scaled by speed. */
  function Velocity(speed: int, angle512: int): (r: Vec2)
    ensures speed == 0 ==> r == Zero()
  {
    if speed == 0 then Zero() else Scale(FromAngle(angle512), speed)
  }

  /** The car after one Car_Update: friction clamped, speed updated, then one step along the heading. */
  function AfterUpdate(v: CarValue): (r: CarValue)
    ensures r == v.(friction := r.friction, speed := r.speed, position := r.position)
    ensures 0 <= r.friction <= FIXED_ONE
    ensures r.position == Add(v.position, Velocity(r.speed, v.angle512))
  {
    var s := UpdatedSpeed(v.speed, v.maxSpeed, v.friction);
    v.(friction := ClampFriction(v.friction), speed := s, position := Add(v.position, Velocity(s, v.angle512)))
  }

  /** The state of every car, in order. */
  function CarValues(cars: seq<Car>): (r: seq<CarValue>)
    reads cars
    ensures |r| == |cars| && forall i | 0 <= i < |cars| :: r[i] == cars[i].State()
  {
    seq(|cars|, i requires 0 <= i < |cars| reads cars => cars[i].State())
  }

  class Car {
    var position: Vec2
    var speed: int
    var maxSpeed: int
    var accelRate: int
    var friction: int
    var angle512: int
    var lap: int
    var rank: int
    var lastCheckpoint: int
    var item: int
    var carname: seq<char>

    function State(): CarValue
      reads this
    {
      CarValue(position, speed, maxSpeed, accelRate, friction, angle512, lap, rank, lastCheckpoint, item, carname)
    }

    /** Car_Init. */
    constructor(pos: Vec2, name: Option<seq<char>>, maxSpeed: int, accelRate: int, friction: int)
      ensures State() == CarValue(pos, 0, maxSpeed, accelRate, ClampFriction(friction), 0, 0, 0, -1, ITEM_NONE, CopyName(name))
    {
      position := pos;
      speed := 0;
      this.maxSpeed := maxSpeed;
      this.accelRate := accelRate;
      this.friction := ClampFriction(friction);
      angle512 := 0;
      lap := 0;
      rank := 0;
      lastCheckpoint := -1;
      item := ITEM_NONE;
      carname := CopyName(name);
    }

    /** Car_Reset: race state back to the start; tuning and name persist. */
    method Reset(spawnPos: Vec2)
      modifies this
      ensures State() == old(State()).(position := spawnPos, speed := 0, angle512 := 0, lap := 0,
                                       rank := 0, lastCheckpoint := -1, item := ITEM_NONE)
      ensures maxSpeed == old(maxSpeed) && accelRate == old(accelRate) &&
              friction == old(friction) && carname == old(carname)
    {
      position := spawnPos;
      speed := 0;
      angle512 := 0;
      lap := 0;
      rank := 0;
      lastCheckpoint := -1;
      item := ITEM_NONE;
    }

    /** Car_Accelerate. */
    method Accelerate()
      modifies this
      ensures State() == old(State()).(speed := CapSpeed(old(speed) + old(accelRate), old(maxSpeed)))
      ensures maxSpeed > 0 ==> speed <= maxSpeed
      ensures maxSpeed <= 0 || old(speed) + accelRate <= maxSpeed ==> speed == old(speed) + accelRate
    {
      speed := speed + accelRate;
      if maxSpeed > 0 && speed > maxSpeed {
        speed := maxSpeed;
      }
    }

    /** Car_Brake: a step that would overshoot zero stops the car. */
    method Brake()
      modifies this
      ensures old(speed) <= 0 ==> State() == old(State())
      ensures old(speed) > 0 && accelRate >= old(speed) ==> State() == old(State()).(speed := 0)
      ensures old(speed) > 0 && accelRate < old(speed) ==> State() == old(State()).(speed := old(speed) - accelRate)
      ensures old(speed) > 0 && accelRate >= 0 ==> 0 <= speed <= old(speed)
    {
      if speed <= 0 {
        return;
      }
      if accelRate >= speed {
        speed := 0;
        return;
      }
      speed := speed - accelRate;
    }

    /** Car_Steer: only the facing angle changes, and it stays in [0, 512). */
    method Steer(deltaAngle512: int)
      modifies this
      ensures State() == old(State()).(angle512 := Wrap(old(angle512) + deltaAngle512))
      ensures angle512 == Wrap(old(angle512) + deltaAngle512)
    {
      angle512 := Wrap(angle512 + deltaAngle512);
    }

    /** Car_Update: friction, snap, cap, then move along the facing angle. */
    method Update()
      modifies this
      ensures State() == AfterUpdate(old(State()))
      ensures speed == UpdatedSpeed(old(speed), old(maxSpeed), old(friction))
      ensures 0 <= friction <= FIXED_ONE
      ensures old(speed) >= 0 ==> 0 <= speed <= old(speed)
    {
      friction := ClampFriction(friction);
      speed := FixedMul(speed, friction);
      if speed <= MIN_SPEED_THRESHOLD {
        speed := 0;
      }
      if maxSpeed > 0 && speed > maxSpeed {
        speed := maxSpeed;
      }
      position := Add(position, Velocity(speed, angle512));
      if old(speed) >= 0 {
        UpdatedSpeedBounds(old(speed), maxSpeed, old(friction));
      }
    }

    /** Car_IsMoving. */
    predicate IsMoving()
      reads this
    {
      speed > MIN_MOVING_SPEED
    }

    /** Car_SetPosition. */
    method SetPosition(pos: Vec2)
      modifies this
      ensures State() == old(State()).(position := pos)
    {
      position := pos;
    }

    /**
     * apply_velocity (Car_SetVelocity): a zero vector stops the car and keeps
     * its heading; otherwise speed and heading come from the vector, speed
     * capped.
     */
    method SetVelocity(velocity: Vec2)
      modifies this
      ensures IsZero(velocity) ==> State() == old(State()).(speed := 0)
      ensures !IsZero(velocity) ==>
        State() == old(State()).(speed := CapSpeed(Len(velocity), old(maxSpeed)), angle512 := AngleOf(velocity))
      ensures 0 <= speed
      ensures !IsZero(velocity) ==> 0 <= angle512 < ANGLE_FULL
    {
      if IsZero(velocity) {
        speed := 0;
        return;
      }
      speed := Len(velocity);
      angle512 := ToAngle(velocity);
      if maxSpeed > 0 && speed > maxSpeed {
        speed := maxSpeed;
      }
    }

    /** Car_ApplyImpulse: the current velocity plus the impulse, applied as above. */
    method ApplyImpulse(impulse: Vec2)
      modifies this
      ensures var v := Add(Velocity(old(speed), old(angle512)), impulse);
        (IsZero(v) ==> State() == old(State()).(speed := 0)) &&
        (!IsZero(v) ==> State() == old(State()).(speed := CapSpeed(Len(v), old(maxSpeed)), angle512 := AngleOf(v)))
    {
      var v := Add(Velocity(speed, angle512), impulse);
      SetVelocity(v);
    }

    /** Car_SetAngle: any angle is normalised into [0, 512). */
    method SetAngle(angle: int)
      modifies this
      ensures State() == old(State()).(angle512 := Wrap(angle))
      ensures 0 <= angle512 < ANGLE_FULL
      ensures 0 <= angle < ANGLE_FULL ==> angle512 == angle
    {
      angle512 := Wrap(angle);
    }

    /** Car_LapComplete. */
    method LapComplete()
      modifies this
      ensures State() == old(State()).(lap := old(lap) + 1)
    {
      lap := lap + 1;
    }
  }
}
