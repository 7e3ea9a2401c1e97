/**
 * The player's item status effects (gameplay/items/items_effects.c):
 * mushroom confusion and speed boost run on tick timers, the oil slow ends
 * after the car has travelled far enough from where it hit the slick.
 */
module ItemEffects {
  import opened FixedMath
  import opened GameTypes
  import opened CarPhysics

  /** Oil slow lasts for 64 pixels of travel. */
  const OIL_SLOW_DISTANCE: int := 64 * FIXED_ONE
  /** Oil halves the car's speed. */
  const OIL_SPEED_DIVISOR: int := 2

  /** Every field of PlayerItemEffects, as a value. */
  datatype Effects = Effects(
    confusionActive: bool, confusionTimer: int,
    speedBoostActive: bool, speedBoostTimer: int, originalMaxSpeed: int,
    oilSlowActive: bool, oilSlowStart: Vec2)

  /** The all-zero effects a memset leaves. */
  const NO_EFFECTS: Effects := Effects(false, 0, false, 0, 0, false, Vec2(0, 0))

  /** Items_ApplySpeedBoost on values: the new effects and car. */
  function Boosted(e: Effects, c: CarValue): (r: (Effects, CarValue))
    ensures r.0.speedBoostActive && r.0.speedBoostTimer == SPEED_BOOST_DURATION
    ensures r.0.originalMaxSpeed == if e.speedBoostActive then e.originalMaxSpeed else c.maxSpeed
    ensures r.1 == c.(maxSpeed := FixedMul(r.0.originalMaxSpeed, SPEED_BOOST_MULT))
  {
    var original := if e.speedBoostActive then e.originalMaxSpeed else c.maxSpeed;
    (e.(speedBoostActive := true, speedBoostTimer := SPEED_BOOST_DURATION, originalMaxSpeed := original),
     c.(maxSpeed := FixedMul(original, SPEED_BOOST_MULT)))
  }

  /** The confusion timer's tick. */
  function ConfusionTick(e: Effects): Effects
  {
    if !e.confusionActive then e
    else e.(confusionTimer := e.confusionTimer - 1, confusionActive := e.confusionTimer - 1 > 0)
  }

  /** The boost timer's tick; on expiry the original top speed is back and caps the speed. */
  function BoostTick(e: Effects, c: CarValue): (Effects, CarValue)
  {
    if !e.speedBoostActive then (e, c)
    else if e.speedBoostTimer - 1 > 0 then (e.(speedBoostTimer := e.speedBoostTimer - 1), c)
    else
      var speed := if c.speed > e.originalMaxSpeed then e.originalMaxSpeed else c.speed;
      (e.(speedBoostTimer := e.speedBoostTimer - 1, speedBoostActive := false),
       c.(maxSpeed := e.originalMaxSpeed, speed := speed))
  }

  /** The oil slow's check: it ends once the car is OIL_SLOW_DISTANCE from where it started. */
  function OilTick(e: Effects, position: Vec2): Effects
  {
    if e.oilSlowActive && Distance(position, e.oilSlowStart) >= OIL_SLOW_DISTANCE then e.(oilSlowActive := false) else e
  }

  /** Items_UpdatePlayerEffects on values: one tick of every active effect. */
  function EffectsTick(e: Effects, c: CarValue): (Effects, CarValue)
  {
    var b := BoostTick(ConfusionTick(e), c);
    (OilTick(b.0, b.1.position), b.1)
  }

  /** n ticks of Items_UpdatePlayerEffects. */
  function EffectsTicks(e: Effects, c: CarValue, n: nat): (Effects, CarValue)
    decreases n
  {
    if n == 0 then (e, c) else var r := EffectsTick(e, c); EffectsTicks(r.0, r.1, n - 1)
  }

  /**
   * One tick: an active timer goes down by one and its effect ends once the
   * timer is at most 0; an expiring boost puts back the original top speed
   * and caps the speed to it; the oil slow ends 64 pixels from its start.
   */
  lemma EffectsTickCases(e: Effects, c: CarValue)
    ensures var r := EffectsTick(e, c);
      (e.confusionActive ==> r.0.confusionTimer == e.confusionTimer - 1 && (r.0.confusionActive <==> e.confusionTimer - 1 > 0)) &&
      (!e.confusionActive ==> !r.0.confusionActive && r.0.confusionTimer == e.confusionTimer) &&
      (e.speedBoostActive && e.speedBoostTimer - 1 <= 0 ==>
         !r.0.speedBoostActive && r.1.maxSpeed == e.originalMaxSpeed && r.1.speed <= e.originalMaxSpeed) &&
      (e.speedBoostActive && e.speedBoostTimer - 1 > 0 ==> r.0.speedBoostActive && r.1 == c) &&
      (!e.speedBoostActive ==> !r.0.speedBoostActive && r.1 == c) &&
      (r.0.oilSlowActive <==> e.oilSlowActive && Distance(r.1.position, e.oilSlowStart) < OIL_SLOW_DISTANCE) &&
      r.1.position == c.position
  {
  }

  /** While a boost has ticks left it stays on and the boosted top speed is kept. */
  lemma {:induction false} BoostRunning(e: Effects, c: CarValue, k: nat)
    requires e.speedBoostActive && k < e.speedBoostTimer
    ensures var r := EffectsTicks(e, c, k);
      r.0.speedBoostActive && r.0.speedBoostTimer == e.speedBoostTimer - k &&
      r.0.originalMaxSpeed == e.originalMaxSpeed && r.1.maxSpeed == c.maxSpeed
    decreases k
  {
    if k > 0 {
      var r := EffectsTick(e, c);
      BoostRunning(r.0, r.1, k - 1);
    }
  }

  /**
   * A fresh or renewed boost doubles the top speed for exactly
   * SPEED_BOOST_DURATION ticks; the tick after that restores the top speed
   * from before the first boost.
   */
  lemma BoostLastsItsDuration(e: Effects, c: CarValue)
    ensures var b := Boosted(e, c);
      var original := if e.speedBoostActive then e.originalMaxSpeed else c.maxSpeed;
      var during := EffectsTicks(b.0, b.1, SPEED_BOOST_DURATION - 1);
      var after := EffectsTicks(b.0, b.1, SPEED_BOOST_DURATION);
      b.1.maxSpeed == 2 * original &&
      during.0.speedBoostActive && during.1.maxSpeed == 2 * original &&
      !after.0.speedBoostActive && after.1.maxSpeed == original
  {
    var b := Boosted(e, c);
    BoostRunning(b.0, b.1, SPEED_BOOST_DURATION - 1);
    var during := EffectsTicks(b.0, b.1, SPEED_BOOST_DURATION - 1);
    EffectsTickCases(during.0, during.1);
    EffectsTicksSplit(b.0, b.1, SPEED_BOOST_DURATION - 1);
  }

  /** The last tick of a run can be taken on its own. */
  lemma {:induction false} EffectsTicksSplit(e: Effects, c: CarValue, n: nat)
    ensures var m := EffectsTicks(e, c, n);
      EffectsTicks(e, c, n + 1) == EffectsTick(m.0, m.1)
    decreases n
  {
    if n > 0 {
      var r := EffectsTick(e, c);
      EffectsTicksSplit(r.0, r.1, n - 1);
    }
  }

  /** Boosting twice keeps the top speed at twice the speed from before the first boost. */
  lemma BoostTwiceDoesNotStack(e: Effects, c: CarValue)
    ensures var once := Boosted(e, c);
      var twice := Boosted(once.0, once.1);
      twice.1.maxSpeed == once.1.maxSpeed &&
      twice.0.originalMaxSpeed == once.0.originalMaxSpeed &&
      twice.0.speedBoostTimer == SPEED_BOOST_DURATION
  {
  }

  /** PlayerItemEffects, updated in place through its pointer. */
  class PlayerItemEffects {
    var confusionActive: bool
    var confusionTimer: int
    var speedBoostActive: bool
    var speedBoostTimer: int
    var originalMaxSpeed: int
    var oilSlowActive: bool
    var oilSlowStart: Vec2

    function Value(): Effects
      reads this
    {
      Effects(confusionActive, confusionTimer, speedBoostActive, speedBoostTimer, originalMaxSpeed,
              oilSlowActive, oilSlowStart)
    }

    /** The zero-initialised static. */
    constructor()
      ensures Value() == NO_EFFECTS
    {
      confusionActive, confusionTimer := false, 0;
      speedBoostActive, speedBoostTimer, originalMaxSpeed := false, 0, 0;
      oilSlowActive, oilSlowStart := false, Vec2(0, 0);
    }

    /** memset(&playerEffects, 0, ...). */
    method Clear()
      modifies this
      ensures Value() == NO_EFFECTS
    {
      confusionActive, confusionTimer := false, 0;
      speedBoostActive, speedBoostTimer, originalMaxSpeed := false, 0, 0;
      oilSlowActive, oilSlowStart := false, Vec2(0, 0);
    }

    /** Items_UpdatePlayerEffects. */
    method UpdatePlayerEffects(player: Car)
      modifies this, player
      ensures (Value(), player.State()) == EffectsTick(old(Value()), old(player.State()))
    {
      ghost var e0, c0 := Value(), player.State();
      if confusionActive {
        confusionTimer := confusionTimer - 1;
        if confusionTimer <= 0 {
          confusionActive := false;
        }
      }
      assert Value() == ConfusionTick(e0) && player.State() == c0;
      ghost var e1 := Value();
      if speedBoostActive {
        speedBoostTimer := speedBoostTimer - 1;
        if speedBoostTimer <= 0 {
          player.maxSpeed := originalMaxSpeed;
          if player.speed > player.maxSpeed {
            player.speed := player.maxSpeed;
          }
          speedBoostActive := false;
        }
      }
      assert (Value(), player.State()) == BoostTick(e1, c0);
      if oilSlowActive {
        var travelled := Distance(player.position, oilSlowStart);
        if travelled >= OIL_SLOW_DISTANCE {
          oilSlowActive := false;
        }
      }
    }

    /** Items_ApplyConfusion. */
    method ApplyConfusion()
      modifies this
      ensures Value() == old(Value()).(confusionActive := true, confusionTimer := MUSHROOM_CONFUSION_DURATION)
    {
      confusionActive := true;
      confusionTimer := MUSHROOM_CONFUSION_DURATION;
    }

    /** Items_ApplySpeedBoost. */
    method ApplySpeedBoost(player: Car)
      modifies this, player
      ensures (Value(), player.State()) == Boosted(old(Value()), old(player.State()))
    {
      if !speedBoostActive {
        originalMaxSpeed := player.maxSpeed;
      }
      player.maxSpeed := FixedMul(originalMaxSpeed, SPEED_BOOST_MULT);
      speedBoostActive := true;
      speedBoostTimer := SPEED_BOOST_DURATION;
    }

    /** Items_ApplyOilSlow: speed halved, truncating toward zero; the slow starts here. */
    method ApplyOilSlow(player: Car)
      modifies this, player
      ensures player.State() == old(player.State()).(speed := TruncDiv(old(player.speed), OIL_SPEED_DIVISOR))
      ensures Value() == old(Value()).(oilSlowActive := true, oilSlowStart := old(player.position))
    {
      player.speed := TruncDiv(player.speed, OIL_SPEED_DIVISOR);
      oilSlowActive := true;
      oilSlowStart := player.position;
    }
  }
}
