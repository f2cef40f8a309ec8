/** The player's boat (src/player.ts): a damped integrator with a charge
    timer for the harpoon throw. */
module Players {
  import opened Maths
  import opened Vectors

  /** The value of a Player. `dead` is set by the game on a crash; the class
      in player.ts does not declare it, so it starts out undefined (falsy). */
  datatype PlayerState = PlayerState(
    position: Vec,
    velocity: Vec,
    angle: real,
    charging: bool,
    chargingTime: real,
    dead: bool)

  /** Player.logic: move by the velocity of the frame's start, damp the
      velocity by 10% per unit of time, and advance the charge timer while
      charging. */
  function PlayerStep(s: PlayerState, dt: real): PlayerState
  {
    s.(position := Plus(s.position, Times(s.velocity, dt)),
       velocity := Times(s.velocity, 1.0 - 0.1 * dt),
       chargingTime := if s.charging then s.chargingTime + dt else s.chargingTime)
  }

  /** A step of length zero moves nothing and damps nothing. */
  lemma PlayerStepZero(s: PlayerState)
    ensures PlayerStep(s, 0.0).position == s.position
    ensures PlayerStep(s, 0.0).velocity == s.velocity
  {
  }

  /** A boat at rest stays where it is and at rest, whatever the step. */
  lemma PlayerStepAtRest(s: PlayerState, dt: real)
    requires s.velocity == Zero
    ensures PlayerStep(s, dt).position == s.position
    ensures PlayerStep(s, dt).velocity == Zero
  {
  }

  /** The charge timer gains exactly dt while charging and nothing otherwise;
      heading, charging flag and crash flag are untouched. */
  lemma PlayerStepTimer(s: PlayerState, dt: real)
    ensures PlayerStep(s, dt).chargingTime - s.chargingTime == (if s.charging then dt else 0.0)
    ensures PlayerStep(s, dt).angle == s.angle
    ensures PlayerStep(s, dt).charging == s.charging
    ensures PlayerStep(s, dt).dead == s.dead
  {
  }

  /** For steps between 0 and 20 the damping never speeds the boat up. */
  lemma PlayerStepDamps(s: PlayerState, dt: real)
    requires 0.0 <= dt <= 20.0
    ensures PlayerStep(s, dt).velocity.LengthSQ() <= s.velocity.LengthSQ()
  {
    var k := 1.0 - 0.1 * dt;
    ScaledSquare(s.velocity.x, k);
    ScaledSquare(s.velocity.y, k);
  }

  /** Scaling by a factor in [-1, 1] does not increase a square. */
  lemma ScaledSquare(x: real, k: real)
    requires -1.0 <= k <= 1.0
    ensures Sq(x * k) <= Sq(x)
  {
    var kk := k * k;
    FractionOf(1.0, kk, kk) by {
      if k >= 0.0 {
        FractionOf(1.0, k, k);
        FractionOf(k, k, kk);
      } else {
        FractionOf(1.0, -k, -k);
        FractionOf(-k, -k, kk);
      }
    }
    assert Sq(x * k) == Sq(x) * kk;
    FractionOf(Sq(x), kk, Sq(x) * kk);
  }

  class Player {
    const position: Vec2
    const velocity: Vec2
    var angle: real
    var charging: bool
    var chargingTime: real
    var dead: bool

    /** The position and velocity vectors are separate objects. */
    predicate Valid()
    {
      position != velocity
    }

    function Snapshot(): PlayerState
      reads this, position, velocity
    {
      PlayerState(position.Value(), velocity.Value(), angle, charging, chargingTime, dead)
    }

    /** A new boat rests at the origin, heading 0, not charging. */
    constructor ()
      ensures Valid() && fresh(position) && fresh(velocity)
      ensures Snapshot() == PlayerState(Zero, Zero, 0.0, false, 0.0, false)
    {
      position := new Vec2(0.0, 0.0);
      velocity := new Vec2(0.0, 0.0);
      angle := 0.0;
      charging := false;
      chargingTime := 0.0;
      dead := false;
    }

    method Logic(dt: real)
      requires Valid()
      modifies position, velocity, this`chargingTime
      ensures Snapshot() == PlayerStep(old(Snapshot()), dt)
    {
      var deltaVel := Vec2.MultiplyVec(velocity, dt);
      position.Add(deltaVel);
      velocity.Multiply(1.0 - 0.1 * dt);
      if charging {
        chargingTime := chargingTime + dt;
      }
    }
  }
}
