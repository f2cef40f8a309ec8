/** The harpoon (src/harpoon.ts) and the whale it hunts (src/fish.ts). They
    live in one module because each refers to the other: the harpoon may be
    stuck in a fish, and the fish looks at the harpoon to know it is hooked. */
module Hunt {
  import opened Maths
  import opened Vectors
  import opened Terrain
  import Players

  // ---------------------------------------------------------------- harpoon

  /** The value of a Harpoon; `attached` says whether attachedTo is set. */
  datatype HarpoonState = HarpoonState(
    active: bool,
    position: Vec,
    velocity: Vec,
    angle: real,
    attached: bool)

  /** Harpoon.logic, given where the fish it may be stuck in is: a stuck
      harpoon sits on the fish, a free one flies on undamped. */
  function HarpoonStep(h: HarpoonState, fishPosition: Vec, dt: real): HarpoonState
  {
    if h.attached then h.(position := fishPosition)
    else h.(position := Plus(h.position, Times(h.velocity, dt)))
  }

  /** A step moves the harpoon and nothing else about it. */
  lemma HarpoonStepKeeps(h: HarpoonState, fishPosition: Vec, dt: real)
    ensures HarpoonStep(h, fishPosition, dt).active == h.active
    ensures HarpoonStep(h, fishPosition, dt).velocity == h.velocity
    ensures HarpoonStep(h, fishPosition, dt).angle == h.angle
    ensures HarpoonStep(h, fishPosition, dt).attached == h.attached
  {
  }

  /** Two steps make one: a free harpoon flies in a straight line at
      constant velocity, and a stuck one stays on the (unmoved) fish. */
  lemma HarpoonStepsCompose(h: HarpoonState, fishPosition: Vec, dt1: real, dt2: real)
    ensures HarpoonStep(HarpoonStep(h, fishPosition, dt1), fishPosition, dt2)
         == HarpoonStep(h, fishPosition, dt1 + dt2)
  {
    if !h.attached {
      assert h.velocity.x * dt1 + h.velocity.x * dt2 == h.velocity.x * (dt1 + dt2);
      assert h.velocity.y * dt1 + h.velocity.y * dt2 == h.velocity.y * (dt1 + dt2);
    }
  }

  // ------------------------------------------------------------------- fish

  /** The value of a Fish. */
  datatype FishState = FishState(
    position: Vec,
    velocity: Vec,
    angle: real,
    fat: real,
    long: real,
    speed: real,
    fearSpeed: real,
    health: real,
    maxHealth: real)

  /** The six terrain densities the fish samples ahead of itself. */
  datatype Probes = Probes(
    shortFront: real,
    longFront: real,
    shortRight: real,
    longRight: real,
    shortLeft: real,
    longLeft: real)

  const LookDist: real := 200.0

  /** The density at `dist` ahead of pos in direction `heading`. */
  function Probe(terrain: Map, pos: Vec, heading: real, dist: real, m: MathFns): real
    requires terrain.GridValid()
  {
    terrain.DataAtWorldPos(Plus(pos, Times(OfAngle(heading, m), dist)))
  }

  /** The probes of one step: straight ahead, 0.15 pi to the right and to
      the left, each at the look distance and at twice it. */
  function Sense(terrain: Map, pos: Vec, angle: real, m: MathFns): Probes
    requires terrain.GridValid()
  {
    Probes(
      Probe(terrain, pos, angle, LookDist, m),
      Probe(terrain, pos, angle, LookDist * 2.0, m),
      Probe(terrain, pos, angle + PI * 0.15, LookDist, m),
      Probe(terrain, pos, angle + PI * 0.15, LookDist * 2.0, m),
      Probe(terrain, pos, angle - PI * 0.15, LookDist, m),
      Probe(terrain, pos, angle - PI * 0.15, LookDist * 2.0, m))
  }

  /** JavaScript truthiness of a number (NaN is not modelled). */
  predicate Truthy(x: real)
  {
    x != 0.0
  }

  /** The short-range part of the turn: away from land seen close on the
      left first, else close on the right, else proportional to the
      difference between the two sides. */
  function ShortTurn(p: Probes, dt: real): real
  {
    if p.shortLeft > 0.7 then (p.shortLeft / 0.7) * dt
    else if p.shortRight > 0.7 then -((p.shortRight / 0.7) * dt)
    else (p.shortLeft - p.shortRight) * 0.5 * dt
  }

  /** The long-range corrections, each applied when its probe is truthy. */
  function LongTurn(p: Probes, dt: real): real
  {
    (if Truthy(p.longLeft) then (p.longLeft / 0.7) * 0.25 * dt else 0.0)
      - (if Truthy(p.longRight) then (p.longRight / 0.7) * 0.25 * dt else 0.0)
  }

  /** The thrust along the heading: back off hard from land close ahead,
      gently from land further ahead (unless that probe is off the grid),
      otherwise swim forward. */
  function Thrust(p: Probes, speed: real, dt: real): real
  {
    if p.shortFront > 0.7 then -speed * dt
    else if p.longFront > 0.7 && p.longFront != 10.0 then -speed * 0.1 * dt
    else speed * dt
  }

  /** A hooked fish swims at its fear speed. */
  function SwimSpeed(s: FishState, hooked: bool): real
  {
    if hooked then s.fearSpeed else s.speed
  }

  function ClampToWorld(v: Vec, size: real): Vec
  {
    Vec(Clamp(v.x, -size / 2.0, size / 2.0), Clamp(v.y, -size / 2.0, size / 2.0))
  }

  /** Fish.logic on values: turn by the probes, thrust along the heading
      the step started with, integrate and damp like the boat, and keep the
      position inside the world square. */
  function FishStep(s: FishState, p: Probes, hooked: bool, dt: real, m: MathFns, size: real): FishState
  {
    var dir := OfAngle(s.angle, m);
    var v1 := Plus(s.velocity, Times(dir, Thrust(p, SwimSpeed(s, hooked), dt)));
    var pos1 := Plus(s.position, Times(v1, dt));
    s.(angle := s.angle + ShortTurn(p, dt) + LongTurn(p, dt),
       velocity := Times(v1, 1.0 - 0.1 * dt),
       position := ClampToWorld(pos1, size))
  }

  /** The turn rule as a sign: with dt > 0 the fish turns to larger angles
      exactly when land is close on the left, or neither side is close and
      the left reads denser; it turns to smaller angles exactly when the left
      is not close and the right reads denser. */
  lemma ShortTurnSign(p: Probes, dt: real)
    requires 0.0 < dt
    ensures ShortTurn(p, dt) > 0.0 <==> p.shortLeft > 0.7 || (p.shortRight <= 0.7 && p.shortLeft > p.shortRight)
    ensures ShortTurn(p, dt) < 0.0 <==> p.shortLeft <= 0.7 && p.shortRight > p.shortLeft
  {
    if p.shortLeft > 0.7 {
      ProductPositive(p.shortLeft / 0.7, dt, (p.shortLeft / 0.7) * dt);
    } else if p.shortRight > 0.7 {
      ProductPositive(p.shortRight / 0.7, dt, (p.shortRight / 0.7) * dt);
    } else if p.shortLeft > p.shortRight {
      ProductPositive((p.shortLeft - p.shortRight) * 0.5, dt, (p.shortLeft - p.shortRight) * 0.5 * dt);
    } else if p.shortLeft < p.shortRight {
      ProductPositive((p.shortRight - p.shortLeft) * 0.5, dt, (p.shortRight - p.shortLeft) * 0.5 * dt);
    }
  }

  /** The truthiness guards on the long-range corrections change nothing:
      a zero probe would add zero anyway. */
  lemma LongTurnUnguarded(p: Probes, dt: real)
    ensures LongTurn(p, dt) == (p.longLeft - p.longRight) / 0.7 * 0.25 * dt
  {
  }

  /** While both long probes read a density on the grid (in [0, 1]), land
      close on the left always makes the fish turn to larger angles, away
      from the left probe: the long-range
      corrections can take away at most 0.25 / 0.7 of the unit turn. */
  lemma TurnsAwayOnGrid(p: Probes, dt: real)
    requires 0.0 < dt
    requires 0.0 <= p.longLeft <= 1.0 && 0.0 <= p.longRight <= 1.0
    requires p.shortLeft > 0.7
    ensures ShortTurn(p, dt) + LongTurn(p, dt) > 0.0
  {
    var net := p.shortLeft / 0.7 + (p.longLeft - p.longRight) / 0.7 * 0.25;
    assert net > 0.0;
    ProductPositive(net, dt, net * dt);
    assert ShortTurn(p, dt) + LongTurn(p, dt) == net * dt;
  }

  /** Off the grid the long probes read the sentinel 10, and then land close
      on the left no longer decides the turn: here the fish turns to smaller
      angles although its short left probe passes 0.7. */
  lemma SentinelReversesTurn()
    ensures var p := Probes(0.0, 0.0, 0.0, 10.0, 0.9, 0.0);
      p.shortLeft > 0.7 && ShortTurn(p, 1.0) + LongTurn(p, 1.0) < 0.0
  {
  }

  /** The general form: with the long right probe off the grid (the
      sentinel 10) and the left probes on it, the fish always turns to
      smaller angles, whatever the short right probe reads. The sentinel
      takes away (10 / 0.7) * 0.25 * dt, more than the short rule and the
      long left correction can add. */
  lemma SentinelOutweighsLeft(p: Probes, dt: real)
    requires 0.0 < dt
    requires 0.0 <= p.shortLeft <= 1.0 && 0.0 <= p.longLeft <= 1.0
    requires p.shortRight == 10.0 || 0.0 <= p.shortRight <= 1.0
    requires p.longRight == 10.0
    ensures ShortTurn(p, dt) + LongTurn(p, dt) < 0.0
  {
    var s := if p.shortLeft > 0.7 then p.shortLeft / 0.7
             else if p.shortRight > 0.7 then -(p.shortRight / 0.7)
             else (p.shortLeft - p.shortRight) * 0.5;
    var net := s + (p.longLeft / 0.7) * 0.25 - (10.0 / 0.7) * 0.25;
    assert net < 0.0;
    assert ShortTurn(p, dt) + LongTurn(p, dt) == net * dt;
    ProductPositive(-net, dt, -net * dt);
  }

  /** The thrust rule as a sign: with positive speed and dt, the fish backs
      off exactly when land is close ahead, or land is further ahead on the
      grid; off the grid further ahead (the sentinel 10) it swims forward. */
  lemma ThrustSign(p: Probes, speed: real, dt: real)
    requires 0.0 < speed && 0.0 < dt
    ensures Thrust(p, speed, dt) < 0.0 <==> p.shortFront > 0.7 || (p.longFront > 0.7 && p.longFront != 10.0)
    ensures p.shortFront <= 0.7 && p.longFront == 10.0 ==> Thrust(p, speed, dt) == speed * dt
  {
    ProductPositive(speed, dt, speed * dt);
    assert -speed * 0.1 * dt == -(speed * dt) * 0.1;
    assert -speed * dt == -(speed * dt);
  }

  /** Hooked, the fish swims at fearSpeed; free, at speed. */
  lemma ThrustUsesFearSpeed(s: FishState, p: Probes, dt: real)
    ensures Thrust(p, SwimSpeed(s, true), dt) == Thrust(p, s.fearSpeed, dt)
    ensures Thrust(p, SwimSpeed(s, false), dt) == Thrust(p, s.speed, dt)
  {
  }

  /** After a step the fish is inside the world square, borders included. */
  lemma FishStepInWorld(s: FishState, p: Probes, hooked: bool, dt: real, m: MathFns, size: real)
    requires 0.0 <= size
    ensures var q := FishStep(s, p, hooked, dt, m, size).position;
      -size / 2.0 <= q.x <= size / 2.0 && -size / 2.0 <= q.y <= size / 2.0
  {
  }

  /** A step leaves health, build and speeds alone. */
  lemma FishStepKeeps(s: FishState, p: Probes, hooked: bool, dt: real, m: MathFns, size: real)
    ensures var t := FishStep(s, p, hooked, dt, m, size);
      t.health == s.health && t.maxHealth == s.maxHealth && t.fat == s.fat && t.long == s.long
      && t.speed == s.speed && t.fearSpeed == s.fearSpeed
  {
  }

  /** Every probe reads either a density in [0, 1] or the sentinel 10. */
  lemma SenseRange(terrain: Map, pos: Vec, angle: real, m: MathFns)
    requires terrain.GridValid()
    ensures var p := Sense(terrain, pos, angle, m);
      (p.shortFront == 10.0 || 0.0 <= p.shortFront <= 1.0)
      && (p.longFront == 10.0 || 0.0 <= p.longFront <= 1.0)
      && (p.shortRight == 10.0 || 0.0 <= p.shortRight <= 1.0)
      && (p.longRight == 10.0 || 0.0 <= p.longRight <= 1.0)
      && (p.shortLeft == 10.0 || 0.0 <= p.shortLeft <= 1.0)
      && (p.longLeft == 10.0 || 0.0 <= p.longLeft <= 1.0)
  {
  }

  // ---------------------------------------------------------------- classes

  class Harpoon {
    var active: bool
    var position: Vec2
    var velocity: Vec2
    var angle: real
    const player: Players.Player
    var attachedTo: Fish?

    predicate Valid()
      reads this
    {
      position != velocity
    }

    function Snapshot(): HarpoonState
      reads this, position, velocity
    {
      HarpoonState(active, position.Value(), velocity.Value(), angle, attachedTo != null)
    }

    /** A new harpoon is stowed: inactive, free, at rest at the origin. */
    constructor (player: Players.Player)
      ensures Valid() && fresh(position) && fresh(velocity)
      ensures this.player == player && attachedTo == null
      ensures Snapshot() == HarpoonState(false, Zero, Zero, 0.0, false)
    {
      this.player := player;
      position := new Vec2(0.0, 0.0);
      velocity := new Vec2(0.0, 0.0);
      active := false;
      angle := 0.0;
      attachedTo := null;
    }

    /** A stuck harpoon takes a fresh copy of the fish's position (so later
        moves of the fish do not carry over by aliasing); a free one adds
        velocity * dt to its own position vector in place. */
    method Logic(dt: real)
      requires Valid()
      modifies this`position, position
      ensures Valid() && attachedTo == old(attachedTo)
      ensures old(attachedTo) != null ==>
        (fresh(position)
         && Snapshot() == HarpoonStep(old(Snapshot()), old(attachedTo.position.Value()), dt)
         && attachedTo.position.Value() == old(attachedTo.position.Value()))
      ensures old(attachedTo) == null ==>
        (position == old(position) && Snapshot() == HarpoonStep(old(Snapshot()), Zero, dt))
    {
      if attachedTo != null {
        position := attachedTo.position.Clone();
      } else {
        var deltaVel := Vec2.MultiplyVec(velocity, dt);
        position.Add(deltaVel);
      }
    }
  }

  class Fish {
    const position: Vec2
    const velocity: Vec2
    var angle: real
    var fat: real
    var long: real
    var speed: real
    var fearSpeed: real
    var health: real
    var maxHealth: real
    const terrain: Map
    const harpoon: Harpoon

    ghost predicate Valid()
    {
      position != velocity && terrain.GridValid()
    }

    function Snapshot(): FishState
      reads this, position, velocity
    {
      FishState(position.Value(), velocity.Value(), angle, fat, long, speed, fearSpeed, health, maxHealth)
    }

    /** A new fish rests at (x, y) heading 1.6 pi, at full health. */
    constructor (x: real, y: real, terrain: Map, harpoon: Harpoon)
      ensures position != velocity && fresh(position) && fresh(velocity)
      ensures this.terrain == terrain && this.harpoon == harpoon
      ensures Snapshot() == FishState(Vec(x, y), Zero, PI * 1.6, 50.0, 100.0, 3.0, 10.0, 120000.0, 120000.0)
    {
      position := new Vec2(x, y);
      velocity := new Vec2(0.0, 0.0);
      angle := PI * 1.6;
      fat := 50.0;
      long := 100.0;
      speed := 3.0;
      fearSpeed := 10.0;
      health := 120000.0;
      maxHealth := 120000.0;
      this.terrain := terrain;
      this.harpoon := harpoon;
    }

    /** One probe: the density `dist` ahead of the fish towards `heading`. */
    method ProbeAt(heading: real, dist: real, m: MathFns) returns (d: real)
      requires Valid()
      ensures d == Probe(terrain, position.Value(), heading, dist, m)
    {
      var look := Vec2.VecOfAngle(heading, m);
      var lookDir := Vec2.MultiplyVec(look, dist);
      var at := Vec2.AddVec(position, lookDir);
      d := terrain.DataAtWorldPos(at.Value());
    }

    /** The sensing part of logic: the six probes, in the order logic takes them. */
    method Look(m: MathFns) returns (p: Probes)
      requires Valid()
      ensures p == Sense(terrain, position.Value(), angle, m)
    {
      var lookDist := LookDist;
      var shortFrontD := ProbeAt(angle, lookDist, m);
      var longFrontD := ProbeAt(angle, lookDist * 2.0, m);
      var shortRightD := ProbeAt(angle + PI * 0.15, lookDist, m);
      var longRightD := ProbeAt(angle + PI * 0.15, lookDist * 2.0, m);
      var shortLeftD := ProbeAt(angle - PI * 0.15, lookDist, m);
      var longLeftD := ProbeAt(angle - PI * 0.15, lookDist * 2.0, m);
      p := Probes(shortFrontD, longFrontD, shortRightD, longRightD, shortLeftD, longLeftD);
    }

    /** The steering part of logic: the short-range rule, then the two
        long-range corrections. */
    method Turn(p: Probes, dt: real)
      modifies this`angle
      ensures angle == old(angle) + ShortTurn(p, dt) + LongTurn(p, dt)
    {
      if p.shortLeft > 0.7 {
        angle := angle + (p.shortLeft / 0.7) * dt;
      } else if p.shortRight > 0.7 {
        angle := angle - (p.shortRight / 0.7) * dt;
      } else {
        angle := angle + (p.shortLeft - p.shortRight) * 0.5 * dt;
      }
      if Truthy(p.longLeft) {
        angle := angle + (p.longLeft / 0.7) * 0.25 * dt;
      }
      if Truthy(p.longRight) {
        angle := angle - (p.longRight / 0.7) * 0.25 * dt;
      }
    }

    /** The thrust part of logic: pick the thrust by the front probes and the
        hook, then swim. */
    method Push(dir: Vec2, p: Probes, dt: real)
      requires Valid() && dir != position && dir != velocity
      modifies position, velocity
      ensures var v1 := Plus(old(velocity.Value()), Times(old(dir.Value()), Thrust(p, SwimSpeed(old(Snapshot()), harpoon.attachedTo != null), dt)));
        velocity.Value() == Times(v1, 1.0 - 0.1 * dt)
        && position.Value() == ClampToWorld(Plus(old(position.Value()), Times(v1, dt)), terrain.size)
    {
      var swim := if harpoon.attachedTo != null then fearSpeed else speed;
      var amount: real;
      if p.shortFront > 0.7 {
        amount := -swim * dt;
        assert amount == Thrust(p, swim, dt);
      } else if p.longFront > 0.7 && p.longFront != 10.0 {
        amount := -swim * 0.1 * dt;
        assert amount == Thrust(p, swim, dt);
      } else {
        amount := swim * dt;
        assert amount == Thrust(p, swim, dt);
      }
      Swim(dir, amount, dt);
    }

    /** The moving part of logic: thrust `amount` along dir, integrate, damp,
        and clamp the position to the world square. */
    method Swim(dir: Vec2, amount: real, dt: real)
      requires Valid() && dir != position && dir != velocity
      modifies position, velocity
      ensures var v1 := Plus(old(velocity.Value()), Times(old(dir.Value()), amount));
        velocity.Value() == Times(v1, 1.0 - 0.1 * dt)
        && position.Value() == ClampToWorld(Plus(old(position.Value()), Times(v1, dt)), terrain.size)
    {
      var thrust := Vec2.MultiplyVec(dir, amount);
      velocity.Add(thrust);
      var deltaVel := Vec2.MultiplyVec(velocity, dt);
      position.Add(deltaVel);
      velocity.Multiply(1.0 - 0.1 * dt);

      position.x := Clamp(position.x, -terrain.size / 2.0, terrain.size / 2.0);
      position.y := Clamp(position.y, -terrain.size / 2.0, terrain.size / 2.0);
    }

    method Logic(dt: real, m: MathFns)
      requires Valid()
      modifies this`angle, position, velocity
      ensures angle == FishStep(old(Snapshot()), Sense(terrain, old(position.Value()), old(angle), m),
                                     harpoon.attachedTo != null, dt, m, terrain.size).angle
      ensures velocity.Value() == FishStep(old(Snapshot()), Sense(terrain, old(position.Value()), old(angle), m),
                                     harpoon.attachedTo != null, dt, m, terrain.size).velocity
      ensures position.Value() == FishStep(old(Snapshot()), Sense(terrain, old(position.Value()), old(angle), m),
                                     harpoon.attachedTo != null, dt, m, terrain.size).position
    {
      ghost var s := Snapshot();
      var dir := Vec2.VecOfAngle(angle, m);

      var p := Look(m);
      Turn(p, dt);

      Push(dir, p, dt);
    }
  }
}
