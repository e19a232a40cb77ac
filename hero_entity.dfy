/**
 * Horizontal movement of the hero.
 *
 * The hero keeps an unsigned horizontal speed, the latest horizontal intent
 * given by its controller and a facing (+1 or -1). Every fixed physics tick
 * either bleeds speed off by the turn-back friction (when the intent opposes
 * the facing) or accelerates / decelerates and re-orients, and finally writes
 * `speed * facing` as the x component of the rigid body's velocity.
 *
 * The first half of the module is the specification: values and pure
 * functions (one tick is `Tick`, n ticks are `Run`) with lemmas about them.
 * The second half is the class `HeroEntity`, whose methods change its fields
 * in place the way the game object does and are proved against those
 * functions.
 */
module HeroMovement {

  /** Tuning of horizontal movement; the authoring contract is that no value is negative. */
  datatype HorizontalSettings = HorizontalSettings(
    acceleration: real,
    deceleration: real,
    turnBackFrictions: real,
    speedMax: real)
  {
    predicate NonNegative() {
      acceleration >= 0.0 && deceleration >= 0.0 && turnBackFrictions >= 0.0 && speedMax >= 0.0
    }
  }

  /** The horizontal movement state of one hero. */
  datatype Motion = Motion(horizontalSpeed: real, moveDirX: real, orientX: real)

  /** A rigid-body velocity. */
  datatype Vec2 = Vec2(x: real, y: real)

  /** Field initialisers: at rest, no intent, facing right. */
  const InitialMotion := Motion(0.0, 0.0, 1.0)

  predicate IsFacing(o: real) {
    o == 1.0 || o == -1.0
  }

  /** The intents the keyboard controller produces: left, none, right. */
  predicate IsIntent(x: real) {
    x == -1.0 || x == 0.0 || x == 1.0
  }

  /** What every tick keeps: a speed within [0, speedMax] and a facing of +1 or -1. */
  predicate Invariant(m: Motion, s: HorizontalSettings) {
    0.0 <= m.horizontalSpeed <= s.speedMax && IsFacing(m.orientX)
  }

  function MinReal(a: real, b: real): real {
    if a <= b then a else b
  }

  function MaxReal(a: real, b: real): real {
    if a >= b then a else b
  }

  /** The total of n equal steps of size c. */
  function Steps(n: nat, c: real): (r: real)
    ensures c >= 0.0 ==> r >= 0.0
  {
    if n == 0 then 0.0 else Steps(n - 1, c) + c
  }

  /** The engine's sign function: zero counts as positive. */
  function Sign(f: real): (r: real)
    ensures IsFacing(r)
    ensures r == 1.0 <==> f >= 0.0
  {
    if f >= 0.0 then 1.0 else -1.0
  }

  /** The product test on intent and facing, read as a statement about signs. */
  function AreOrientAndMovementOpposite(moveDirX: real, orientX: real): (r: bool)
    ensures r <==> (moveDirX < 0.0 && orientX > 0.0) || (moveDirX > 0.0 && orientX < 0.0)
  {
    moveDirX * orientX < 0.0
  }

  /**
   * One acceleration step: the speed grows by `acceleration * dt` and is
   * clipped to `speedMax` when the sum exceeds it.
   */
  function AcceleratedSpeed(speed: real, s: HorizontalSettings, dt: real): (r: real)
    ensures r <= s.speedMax
    ensures r == speed + s.acceleration * dt
            || (r == s.speedMax && speed + s.acceleration * dt > s.speedMax)
  {
    var v := speed + s.acceleration * dt;
    if v > s.speedMax then s.speedMax else v
  }

  /**
   * One deceleration step: the speed shrinks by `deceleration * dt` and is
   * clipped to zero when the difference goes negative.
   */
  function DeceleratedSpeed(speed: real, s: HorizontalSettings, dt: real): (r: real)
    ensures 0.0 <= r
    ensures r == speed - s.deceleration * dt
            || (r == 0.0 && speed - s.deceleration * dt < 0.0)
  {
    var v := speed - s.deceleration * dt;
    if v < 0.0 then 0.0 else v
  }

  /** Facing after re-orientation: follows a non-zero intent, kept on zero intent. */
  function OrientFromMovement(moveDirX: real, orientX: real): (r: real)
    ensures moveDirX == 0.0 ==> r == orientX
    ensures moveDirX > 0.0 ==> r == 1.0
    ensures moveDirX < 0.0 ==> r == -1.0
  {
    if moveDirX == 0.0 then orientX else Sign(moveDirX)
  }

  /**
   * One turn-back step: the speed shrinks by the turn-back friction (not by
   * the deceleration); only when it would go strictly negative is it set to
   * zero and does the facing follow the intent.
   */
  function TurnBackStep(m: Motion, s: HorizontalSettings, dt: real): (r: Motion)
    ensures r.moveDirX == m.moveDirX
    ensures 0.0 <= r.horizontalSpeed
    ensures (r.horizontalSpeed == m.horizontalSpeed - s.turnBackFrictions * dt && r.orientX == m.orientX)
            || (r.horizontalSpeed == 0.0 && m.horizontalSpeed - s.turnBackFrictions * dt < 0.0
                && r.orientX == OrientFromMovement(m.moveDirX, m.orientX))
  {
    var v := m.horizontalSpeed - s.turnBackFrictions * dt;
    if v < 0.0 then
      m.(horizontalSpeed := 0.0, orientX := OrientFromMovement(m.moveDirX, m.orientX))
    else
      m.(horizontalSpeed := v)
  }

  /** One fixed tick of the horizontal state machine. */
  function Tick(m: Motion, s: HorizontalSettings, dt: real): (r: Motion)
    ensures r.moveDirX == m.moveDirX
    ensures s.NonNegative() && dt >= 0.0 && Invariant(m, s) ==> Invariant(r, s)
  {
    if AreOrientAndMovementOpposite(m.moveDirX, m.orientX) then
      TurnBackStep(m, s, dt)
    else
      var speed := if m.moveDirX != 0.0 then AcceleratedSpeed(m.horizontalSpeed, s, dt)
                   else DeceleratedSpeed(m.horizontalSpeed, s, dt);
      Motion(speed, m.moveDirX, OrientFromMovement(m.moveDirX, m.orientX))
  }

  /** `n` consecutive ticks with the intent held. */
  function Run(m: Motion, s: HorizontalSettings, dt: real, n: nat): (r: Motion)
    ensures r.moveDirX == m.moveDirX
  {
    if n == 0 then m else Tick(Run(m, s, dt, n - 1), s, dt)
  }

  /** The x component written to the rigid body: the speed carried in the facing direction. */
  function HorizontalVelocity(m: Motion): (vx: real)
    ensures m.orientX == 1.0 ==> vx == m.horizontalSpeed
    ensures m.orientX == -1.0 ==> vx == -m.horizontalSpeed
  {
    m.horizontalSpeed * m.orientX
  }

  // ---------------------------------------------------------------------------
  // Properties of the specification

  lemma NonNegativeProduct(a: real, b: real)
    requires a >= 0.0 && b >= 0.0
    ensures a * b >= 0.0
  {
  }

  lemma InitialMotionSatisfiesInvariant(s: HorizontalSettings)
    requires s.NonNegative()
    ensures Invariant(InitialMotion, s)
  {
  }

  /** Every reachable state keeps the invariant, however many ticks run. */
  lemma {:induction false} RunPreservesInvariant(m: Motion, s: HorizontalSettings, dt: real, n: nat)
    requires s.NonNegative() && dt >= 0.0
    requires Invariant(m, s)
    ensures Invariant(Run(m, s, dt, n), s)
  {
    if n > 0 {
      RunPreservesInvariant(m, s, dt, n - 1);
    }
  }

  /**
   * With a controller intent and a facing of +1 or -1, the tick is decided by
   * the intent alone: opposite intent turns back, agreeing intent
   * accelerates and keeps the facing, no intent decelerates and keeps it.
   */
  lemma TickByIntent(m: Motion, s: HorizontalSettings, dt: real)
    requires IsIntent(m.moveDirX) && IsFacing(m.orientX)
    ensures AreOrientAndMovementOpposite(m.moveDirX, m.orientX) <==> m.moveDirX == -m.orientX
    ensures m.moveDirX == -m.orientX ==> Tick(m, s, dt) == TurnBackStep(m, s, dt)
    ensures m.moveDirX == m.orientX ==>
              Tick(m, s, dt) == m.(horizontalSpeed := AcceleratedSpeed(m.horizontalSpeed, s, dt))
    ensures m.moveDirX == 0.0 ==>
              Tick(m, s, dt) == m.(horizontalSpeed := DeceleratedSpeed(m.horizontalSpeed, s, dt))
  {
  }

  /** The turn-back step consults only the friction: acceleration and deceleration play no part. */
  lemma TurnBackIgnoresOtherTuning(m: Motion, s: HorizontalSettings, dt: real, acceleration: real, deceleration: real)
    ensures TurnBackStep(m, s, dt)
            == TurnBackStep(m, s.(acceleration := acceleration, deceleration := deceleration), dt)
  {
  }

  /**
   * A turn-back that lands on zero exactly keeps the old facing; the flip
   * happens on the next tick, provided that tick bleeds off anything at all.
   */
  lemma TurnBackLandingOnZeroDefersFlip(m: Motion, s: HorizontalSettings, dt: real)
    requires AreOrientAndMovementOpposite(m.moveDirX, m.orientX)
    requires m.horizontalSpeed == s.turnBackFrictions * dt
    ensures Tick(m, s, dt) == m.(horizontalSpeed := 0.0)
    ensures s.turnBackFrictions * dt > 0.0 ==>
              Tick(Tick(m, s, dt), s, dt)
              == m.(horizontalSpeed := 0.0, orientX := Sign(m.moveDirX))
  {
  }

  /**
   * Holding an intent that agrees with the facing, the speed after n ticks is
   * the starting speed plus n acceleration steps, clipped to speedMax.
   */
  lemma {:induction false} RunHoldingIntentAccelerates(m: Motion, s: HorizontalSettings, dt: real, n: nat)
    requires s.NonNegative() && dt >= 0.0
    requires m.moveDirX != 0.0 && m.orientX == Sign(m.moveDirX)
    requires m.horizontalSpeed <= s.speedMax
    ensures Run(m, s, dt, n)
            == m.(horizontalSpeed := MinReal(m.horizontalSpeed + Steps(n, s.acceleration * dt), s.speedMax))
  {
    if n > 0 {
      RunHoldingIntentAccelerates(m, s, dt, n - 1);
      NonNegativeProduct(s.acceleration, dt);
      TickWithAgreeingIntent(Run(m, s, dt, n - 1), s, dt);
      ClippedAdd(m.horizontalSpeed + Steps(n - 1, s.acceleration * dt), s.acceleration * dt, s.speedMax);
    }
  }

  /** Holding an intent that agrees with the facing accelerates and keeps the facing. */
  lemma TickWithAgreeingIntent(m: Motion, s: HorizontalSettings, dt: real)
    requires m.moveDirX != 0.0 && m.orientX == Sign(m.moveDirX)
    ensures Tick(m, s, dt) == m.(horizontalSpeed := AcceleratedSpeed(m.horizontalSpeed, s, dt))
  {
  }

  lemma ClippedAdd(before: real, c: real, bound: real)
    requires c >= 0.0
    ensures MinReal(MinReal(before, bound) + c, bound) == MinReal(before + c, bound)
  {
  }

  /** From rest, holding the intent for n ticks with n * acceleration * dt >= speedMax reaches speedMax exactly. */
  lemma FromRestReachesSpeedMax(dir: real, s: HorizontalSettings, dt: real, n: nat)
    requires s.NonNegative() && dt >= 0.0
    requires dir != 0.0
    requires (n as real) * (s.acceleration * dt) >= s.speedMax
    ensures Run(Motion(0.0, dir, Sign(dir)), s, dt, n) == Motion(s.speedMax, dir, Sign(dir))
  {
    StepsIsProduct(n, s.acceleration * dt);
    RunHoldingIntentAccelerates(Motion(0.0, dir, Sign(dir)), s, dt, n);
  }

  /** While accelerating, the speed never decreases from one tick count to a larger one. */
  lemma AccelerationIsMonotone(m: Motion, s: HorizontalSettings, dt: real, k: nat, n: nat)
    requires s.NonNegative() && dt >= 0.0
    requires m.moveDirX != 0.0 && m.orientX == Sign(m.moveDirX)
    requires m.horizontalSpeed <= s.speedMax
    requires k <= n
    ensures Run(m, s, dt, k).horizontalSpeed <= Run(m, s, dt, n).horizontalSpeed <= s.speedMax
  {
    RunHoldingIntentAccelerates(m, s, dt, k);
    RunHoldingIntentAccelerates(m, s, dt, n);
    NonNegativeProduct(s.acceleration, dt);
    StepsGrow(k, n, s.acceleration * dt);
  }

  /**
   * With no intent, the speed after n ticks is the starting speed minus n
   * deceleration steps, clipped to zero; the facing does not change.
   */
  lemma {:induction false} RunWithoutIntentDecelerates(m: Motion, s: HorizontalSettings, dt: real, n: nat)
    requires s.NonNegative() && dt >= 0.0
    requires m.moveDirX == 0.0 && 0.0 <= m.horizontalSpeed
    ensures Run(m, s, dt, n)
            == m.(horizontalSpeed := MaxReal(m.horizontalSpeed - Steps(n, s.deceleration * dt), 0.0))
  {
    if n > 0 {
      RunWithoutIntentDecelerates(m, s, dt, n - 1);
      var c := s.deceleration * dt;
      NonNegativeProduct(s.deceleration, dt);
      ClippedSubtract(m.horizontalSpeed - Steps(n - 1, c), c);
    }
  }

  lemma ClippedSubtract(before: real, c: real)
    requires c >= 0.0
    ensures MaxReal(MaxReal(before, 0.0) - c, 0.0) == MaxReal(before - c, 0.0)
  {
  }

  /** Without intent the hero comes to rest at exactly zero, never below, and keeps its facing. */
  lemma ReleasedIntentStopsExactly(m: Motion, s: HorizontalSettings, dt: real, n: nat)
    requires s.NonNegative() && dt >= 0.0
    requires m.moveDirX == 0.0 && 0.0 <= m.horizontalSpeed
    requires (n as real) * (s.deceleration * dt) >= m.horizontalSpeed
    ensures Run(m, s, dt, n) == m.(horizontalSpeed := 0.0)
  {
    StepsIsProduct(n, s.deceleration * dt);
    RunWithoutIntentDecelerates(m, s, dt, n);
  }

  /**
   * Turning back, as long as n friction steps do not overshoot zero the
   * speed is the starting speed minus n friction steps and the facing is kept.
   */
  lemma {:induction false} RunTurningBack(m: Motion, s: HorizontalSettings, dt: real, n: nat)
    requires s.turnBackFrictions * dt >= 0.0
    requires AreOrientAndMovementOpposite(m.moveDirX, m.orientX)
    requires m.horizontalSpeed - Steps(n, s.turnBackFrictions * dt) >= 0.0
    ensures Run(m, s, dt, n)
            == m.(horizontalSpeed := m.horizontalSpeed - Steps(n, s.turnBackFrictions * dt))
  {
    if n > 0 {
      RunTurningBack(m, s, dt, n - 1);
    }
  }

  /**
   * The pivot: on the first tick whose friction step overshoots zero the
   * speed becomes zero and the facing flips to the intent.
   */
  lemma TurnBackPivot(m: Motion, s: HorizontalSettings, dt: real, n: nat)
    requires s.turnBackFrictions * dt >= 0.0
    requires AreOrientAndMovementOpposite(m.moveDirX, m.orientX)
    requires m.horizontalSpeed - (n as real) * (s.turnBackFrictions * dt) >= 0.0
    requires m.horizontalSpeed - ((n + 1) as real) * (s.turnBackFrictions * dt) < 0.0
    ensures Run(m, s, dt, n + 1) == Motion(0.0, m.moveDirX, Sign(m.moveDirX))
  {
    StepsIsProduct(n, s.turnBackFrictions * dt);
    StepsIsProduct(n + 1, s.turnBackFrictions * dt);
    RunTurningBack(m, s, dt, n);
  }

  /** n steps of size c amount to n * c. */
  lemma {:induction false} StepsIsProduct(n: nat, c: real)
    ensures Steps(n, c) == (n as real) * c
  {
    if n > 0 {
      StepsIsProduct(n - 1, c);
      assert (n as real) * c == ((n - 1) as real) * c + c;
    }
  }

  lemma {:induction false} StepsGrow(k: nat, n: nat, c: real)
    requires k <= n && c >= 0.0
    ensures Steps(k, c) <= Steps(n, c)
  {
    if k < n {
      StepsGrow(k, n - 1, c);
    }
  }

  /** The written velocity is bounded by speedMax and points where the hero faces. */
  lemma VelocityFollowsFacing(m: Motion, s: HorizontalSettings)
    requires Invariant(m, s)
    ensures -s.speedMax <= HorizontalVelocity(m) <= s.speedMax
    ensures HorizontalVelocity(m) > 0.0 ==> m.orientX == 1.0
    ensures HorizontalVelocity(m) < 0.0 ==> m.orientX == -1.0
  {
  }

  // ---------------------------------------------------------------------------
  // The game object

  class HeroEntity {
    const settings: HorizontalSettings
    var horizontalSpeed: real
    var moveDirX: real
    var orientX: real
    /** The rigid body's velocity. */
    var velocity: Vec2

    function State(): Motion
      reads this
    {
      Motion(horizontalSpeed, moveDirX, orientX)
    }

    ghost predicate Valid()
      reads this
    {
      settings.NonNegative() && Invariant(State(), settings)
    }

    constructor (settings: HorizontalSettings, velocity: Vec2)
      ensures this.settings == settings && this.velocity == velocity
      ensures State() == InitialMotion
      ensures settings.NonNegative() ==> Valid()
    {
      this.settings := settings;
      this.velocity := velocity;
      horizontalSpeed := 0.0;
      moveDirX := 0.0;
      orientX := 1.0;
    }

    method Accelerate(dt: real)
      modifies this`horizontalSpeed
      ensures horizontalSpeed == AcceleratedSpeed(old(horizontalSpeed), settings, dt)
    {
      ghost var speed := horizontalSpeed;
      horizontalSpeed := horizontalSpeed + settings.acceleration * dt;
      if horizontalSpeed > settings.speedMax {
        horizontalSpeed := settings.speedMax;
        assert speed + settings.acceleration * dt > settings.speedMax;
        assert AcceleratedSpeed(speed, settings, dt) == settings.speedMax;
      }
    }

    method TurnBack(dt: real)
      modifies this`horizontalSpeed, this`orientX
      ensures State() == TurnBackStep(old(State()), settings, dt)
    {
      horizontalSpeed := horizontalSpeed - settings.turnBackFrictions * dt;
      if horizontalSpeed < 0.0 {
        horizontalSpeed := 0.0;
        ChangeOrientFromHorizontalMovement();
      }
    }

    method Decelerate(dt: real)
      modifies this`horizontalSpeed
      ensures horizontalSpeed == DeceleratedSpeed(old(horizontalSpeed), settings, dt)
    {
      horizontalSpeed := horizontalSpeed - settings.deceleration * dt;
      if horizontalSpeed < 0.0 {
        horizontalSpeed := 0.0;
      }
    }

    method UpdateHorizontalSpeed(dt: real)
      modifies this`horizontalSpeed
      ensures moveDirX != 0.0 ==> horizontalSpeed == AcceleratedSpeed(old(horizontalSpeed), settings, dt)
      ensures moveDirX == 0.0 ==> horizontalSpeed == DeceleratedSpeed(old(horizontalSpeed), settings, dt)
    {
      if moveDirX != 0.0 {
        Accelerate(dt);
      } else {
        Decelerate(dt);
      }
    }

    /** Records the controller's intent; speed, facing and velocity are untouched. */
    method SetMoveDirX(dirX: real)
      modifies this`moveDirX
      ensures State() == old(State()).(moveDirX := dirX)
    {
      moveDirX := dirX;
    }

    method ApplyHorizontalSpeed()
      modifies this`velocity
      ensures velocity == Vec2(HorizontalVelocity(State()), old(velocity.y))
    {
      var v := velocity;
      v := v.(x := horizontalSpeed * orientX);
      velocity := v;
    }

    method ChangeOrientFromHorizontalMovement()
      modifies this`orientX
      ensures orientX == OrientFromMovement(moveDirX, old(orientX))
    {
      if moveDirX == 0.0 {
        return;
      }
      orientX := Sign(moveDirX);
    }

    /** One fixed physics tick; `dt` is the engine's fixed time step. */
    method FixedUpdate(dt: real)
      requires dt > 0.0
      modifies this
      ensures State() == Tick(old(State()), settings, dt)
      ensures velocity == Vec2(HorizontalVelocity(State()), old(velocity.y))
      ensures old(Valid()) ==> Valid()
    {
      if AreOrientAndMovementOpposite(moveDirX, orientX) {
        TurnBack(dt);
      } else {
        UpdateHorizontalSpeed(dt);
        ChangeOrientFromHorizontalMovement();
      }
      ApplyHorizontalSpeed();
    }
  }
}
