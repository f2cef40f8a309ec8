/** The game (src/game.ts): one tick of the simulation, the input handlers
    and the frame-time guard of the main loop. The tick is specified on
    values, phase by phase, in the order game.ts runs them. */
module Game {
  import opened Maths
  import opened Vectors
  import opened Terrain
  import opened Players
  import opened Hunt

  datatype World = World(player: PlayerState, harpoon: HarpoonState, fish: FishState)

  /** A lookup in keyPresses: a key never seen reads undefined, which is falsy. */
  function Pressed(keys: map<string, bool>, key: string): bool
  {
    key in keys && keys[key]
  }

  /** The world square [min, max] of game.ts's bounds. */
  function WorldBounds(size: real): (Vec, Vec)
  {
    (Vec(-size / 2.0, -size / 2.0), Vec(size / 2.0, size / 2.0))
  }

  // ------------------------------------------------------------ the phases

  /** Keyboard steering: a decreases the angle and d increases it by dt (on
      the canvas, whose y axis points down, a turns the boat anticlockwise and
      d clockwise). */
  function SteeredAngle(angle: real, keys: map<string, bool>, dt: real): real
  {
    var a1 := if Pressed(keys, "a") then angle - 1.0 * dt else angle;
    if Pressed(keys, "d") then a1 + 1.0 * dt else a1
  }

  /** The push along the heading: w forward, s back, the two together cancel;
      space picks the strong acceleration 50 over the normal 20. */
  function PushFactor(keys: map<string, bool>): real
  {
    var accel := if Pressed(keys, " ") then 50.0 else 20.0;
    var d1 := if Pressed(keys, "w") then 1.0 else 0.0;
    var d2 := if Pressed(keys, "s") then d1 - 1.0 else d1;
    d2 * accel
  }

  /** The keyboard part of logic: turn first, then push along the new heading. */
  function InputPhase(w: World, keys: map<string, bool>, dt: real, m: MathFns): World
  {
    var p := w.player;
    var angle := SteeredAngle(p.angle, keys, dt);
    var acceleration := Times(OfAngle(angle, m), PushFactor(keys));
    w.(player := p.(angle := angle, velocity := Plus(p.velocity, Times(acceleration, dt))))
  }

  function PlayerPhase(w: World, dt: real): World
  {
    w.(player := PlayerStep(w.player, dt))
  }

  function ClampToBounds(v: Vec, bounds: (Vec, Vec)): Vec
  {
    Vec(Clamp(v.x, bounds.0.x, bounds.1.x), Clamp(v.y, bounds.0.y, bounds.1.y))
  }

  function BoundsPhase(w: World, bounds: (Vec, Vec)): World
  {
    w.(player := w.player.(position := ClampToBounds(w.player.position, bounds)))
  }

  /** Only an active harpoon moves; a stuck one snaps to where the fish was
      before the fish's own step. */
  function HarpoonPhase(w: World, dt: real): World
  {
    if w.harpoon.active then w.(harpoon := HarpoonStep(w.harpoon, w.fish.position, dt)) else w
  }

  function FishPhase(w: World, terrain: Map, dt: real, m: MathFns): World
    requires terrain.GridValid()
  {
    w.(fish := FishStep(w.fish, Sense(terrain, w.fish.position, w.fish.angle, m),
                        w.harpoon.attached, dt, m, terrain.size))
  }

  /** Attach and break: a flying harpoon sticks when closer than 30 to the
      fish, and is lost when further than 500 from the boat. */
  function Resolve(w: World, m: MathFns): World
  {
    if w.harpoon.active && !w.harpoon.attached then
      var h1 := if Distance(w.harpoon.position, w.fish.position, m) < 30.0
                then w.harpoon.(attached := true) else w.harpoon;
      var h2 := if Distance(w.harpoon.position, w.player.position, m) > 500.0
                then h1.(active := false) else h1;
      w.(harpoon := h2)
    else w
  }

  /** The tether's pull on the boat: the vector to the fish, scaled by
      dt * |diff| / 5000. */
  function TetherImpulse(w: World, dt: real, m: MathFns): Vec
  {
    var diff := Minus(w.fish.position, w.player.position);
    Times(diff, (dt * Length(diff, m)) / 5000.0)
  }

  /** While the harpoon is stuck, the boat is pulled towards the fish and
      the fish gets -0.05 times the same pull. */
  function Tether(w: World, dt: real, m: MathFns): World
  {
    if w.harpoon.attached then
      var pull := TetherImpulse(w, dt, m);
      w.(player := w.player.(velocity := Plus(w.player.velocity, pull)),
         fish := w.fish.(velocity := Plus(w.fish.velocity, Times(pull, -0.05))))
    else w
  }

  /** Running aground (density above 0.75, or off the grid) wrecks the boat
      and drops the harpoon. */
  function Crash(w: World, terrain: Map): World
    requires terrain.GridValid()
  {
    if terrain.DataAtWorldPos(w.player.position) > 0.75 then
      w.(player := w.player.(dead := true), harpoon := w.harpoon.(attached := false, active := false))
    else w
  }

  /** The moving half of a tick: the boat, then the harpoon, then the fish. */
  function Advance(w: World, keys: map<string, bool>, dt: real, m: MathFns, terrain: Map, bounds: (Vec, Vec)): World
    requires terrain.GridValid()
  {
    var w1 := BoundsPhase(PlayerPhase(InputPhase(w, keys, dt, m), dt), bounds);
    FishPhase(HarpoonPhase(w1, dt), terrain, dt, m)
  }

  /** The resolving half of a tick: attach and break, tether, crash. */
  function Settle(w: World, dt: real, m: MathFns, terrain: Map): World
    requires terrain.GridValid()
  {
    Crash(Tether(Resolve(w, m), dt, m), terrain)
  }

  /** Game.logic on values. */
  function Tick(w: World, keys: map<string, bool>, dt: real, m: MathFns, terrain: Map, bounds: (Vec, Vec)): World
    requires terrain.GridValid()
  {
    Settle(Advance(w, keys, dt, m, terrain, bounds), dt, m, terrain)
  }

  // -------------------------------------------------------------- handlers

  /** mousedown: the left button starts charging from zero, the right one
      stops charging and recalls the harpoon. */
  function MouseDownEffect(w: World, button: int): World
  {
    if button == 0 then w.(player := w.player.(charging := true, chargingTime := 0.0))
    else if button == 2 then
      w.(player := w.player.(charging := false), harpoon := w.harpoon.(active := false, attached := false))
    else w
  }

  /** The launch speed: 100 per unit of charging time, clamped to [50, 400]. */
  function LaunchSpeed(chargingTime: real): (r: real)
    ensures 50.0 <= r <= 400.0
    ensures 0.5 <= chargingTime <= 4.0 ==> r == chargingTime * 100.0
    ensures chargingTime <= 0.5 ==> r == 50.0
    ensures chargingTime >= 4.0 ==> r == 400.0
  {
    Clamp(chargingTime * 100.0, 50.0, 400.0)
  }

  /** The harpoon a throw produces: active, free, at the boat, aimed at the
      mouse position in world terms, moving at the launch speed relative to
      the boat. The camera is the view offset the mouse position is taken in. */
  function Launch(p: PlayerState, mouse: Vec, camera: Vec, m: MathFns): HarpoonState
  {
    var diffToMouse := Minus(Plus(mouse, camera), p.position);
    HarpoonState(true, p.position,
                 Plus(Times(Normalised(diffToMouse, m), LaunchSpeed(p.chargingTime)), p.velocity),
                 AngleOf(diffToMouse, m), false)
  }

  /** mouseup: releasing the left button while charging throws the harpoon;
      charging itself is not reset. */
  function MouseUpEffect(w: World, button: int, mouse: Vec, camera: Vec, m: MathFns): World
  {
    if button == 0 && w.player.charging then w.(harpoon := Launch(w.player, mouse, camera, m)) else w
  }

  /** The step the loop hands to logic: 1 / delta, or 0 when no time passed. */
  function FrameTime(delta: int): (r: real)
    ensures delta == 0 ==> r == 0.0
    ensures delta != 0 ==> r * delta as real == 1.0
  {
    if delta != 0 then 1.0 / delta as real else 0.0
  }

  // ---------------------------------------------------------------- lemmas

  /** After a tick the boat is inside the world square: the clamp puts it
      there and the later phases change only velocities and flags. */
  lemma TickKeepsPlayerInBounds(w: World, keys: map<string, bool>, dt: real, m: MathFns, terrain: Map)
    requires terrain.GridValid()
    ensures var q := Tick(w, keys, dt, m, terrain, WorldBounds(terrain.size)).player.position;
      -terrain.size / 2.0 <= q.x <= terrain.size / 2.0 && -terrain.size / 2.0 <= q.y <= terrain.size / 2.0
  {
  }

  /** After a tick the boat is wrecked exactly when it was already, or when
      it ends the tick over dense land or off the grid; a wreck always
      leaves the harpoon inactive and free. */
  lemma TickCrashRule(w: World, keys: map<string, bool>, dt: real, m: MathFns, terrain: Map, bounds: (Vec, Vec))
    requires terrain.GridValid()
    ensures var t := Tick(w, keys, dt, m, terrain, bounds);
      t.player.dead <==> w.player.dead || terrain.DataAtWorldPos(t.player.position) > 0.75
    ensures var t := Tick(w, keys, dt, m, terrain, bounds);
      terrain.DataAtWorldPos(t.player.position) > 0.75 ==> !t.harpoon.active && !t.harpoon.attached
  {
  }

  /** The clamp lets the boat reach x == size / 2, which the lookup reads as
      off the grid: a boat pressed against the right or bottom edge of the
      world is wrecked, while the left and top edges are water like any other. */
  lemma FarEdgeWrecks(w: World, keys: map<string, bool>, dt: real, m: MathFns, terrain: Map, bounds: (Vec, Vec))
    requires terrain.GridValid()
    requires var q := Tick(w, keys, dt, m, terrain, bounds).player.position;
      q.x == terrain.size / 2.0 || q.y == terrain.size / 2.0
    ensures Tick(w, keys, dt, m, terrain, bounds).player.dead
  {
    var q := Tick(w, keys, dt, m, terrain, bounds).player.position;
    terrain.FarEdgeIsOff(q);
  }

  /** The attach rule: the harpoon ends up stuck exactly when it was, or it
      was flying and came closer than 30 to the fish. */
  lemma ResolveAttach(w: World, m: MathFns)
    ensures Resolve(w, m).harpoon.attached
        <==> w.harpoon.attached || (w.harpoon.active && Distance(w.harpoon.position, w.fish.position, m) < 30.0)
  {
  }

  /** The break rule: the harpoon stays active exactly when it was, and it
      was already stuck or stayed within 500 of the boat. Nothing else about
      the world changes. */
  lemma ResolveBreak(w: World, m: MathFns)
    ensures Resolve(w, m).harpoon.active
        <==> w.harpoon.active && (w.harpoon.attached || Distance(w.harpoon.position, w.player.position, m) <= 500.0)
    ensures Resolve(w, m).player == w.player && Resolve(w, m).fish == w.fish
    ensures Resolve(w, m).harpoon.position == w.harpoon.position
  {
  }

  /** Both rules can fire in one tick: a harpoon that sticks while too far
      from the boat ends up stuck but inactive, so the tether keeps pulling
      while the harpoon itself is no longer stepped. */
  lemma AttachAndBreakTogether(w: World, m: MathFns, dt: real)
    requires w.harpoon.active && !w.harpoon.attached
    requires Distance(w.harpoon.position, w.fish.position, m) < 30.0
    requires Distance(w.harpoon.position, w.player.position, m) > 500.0
    ensures Resolve(w, m).harpoon.attached && !Resolve(w, m).harpoon.active
    ensures HarpoonPhase(Resolve(w, m), dt) == Resolve(w, m)
    ensures Tether(Resolve(w, m), dt, m).player.velocity == Plus(w.player.velocity, TetherImpulse(w, dt, m))
  {
  }

  /** With an exact square root the distance tests are comparisons of
      squared distances: closer than 30 is a squared distance below 900,
      further than 500 one above 250000. */
  lemma ResolveBySquares(w: World, m: MathFns)
    requires ExactSqrt(m)
    ensures Resolve(w, m).harpoon.attached
        <==> w.harpoon.attached || (w.harpoon.active && DistanceSQ(w.harpoon.position, w.fish.position) < 900.0)
    ensures Resolve(w, m).harpoon.active
        <==> w.harpoon.active && (w.harpoon.attached || DistanceSQ(w.harpoon.position, w.player.position) <= 250000.0)
  {
    DistanceVersusBound(w.harpoon.position, w.fish.position, m, 30.0);
    DistanceVersusBound(w.harpoon.position, w.player.position, m, 500.0);
  }

  /** The tether changes velocities only: the fish's change is -0.05 times
      the boat's. Without a stuck harpoon it changes nothing. */
  lemma TetherRule(w: World, dt: real, m: MathFns)
    ensures var t := Tether(w, dt, m);
      t.player.position == w.player.position && t.fish.position == w.fish.position
      && t.harpoon == w.harpoon
    ensures var t := Tether(w, dt, m);
      Minus(t.fish.velocity, w.fish.velocity) == Times(Minus(t.player.velocity, w.player.velocity), -0.05)
    ensures !w.harpoon.attached ==> Tether(w, dt, m) == w
  {
    var t := Tether(w, dt, m);
    if w.harpoon.attached {
      var pull := TetherImpulse(w, dt, m);
      AddSubRoundTrip(w.player.velocity, pull);
      AddSubRoundTrip(w.fish.velocity, Times(pull, -0.05));
    }
  }

  /** With an exact square root and a non-negative step the pull points
      towards the fish (or is zero). */
  lemma TetherPullsTowardsFish(w: World, dt: real, m: MathFns)
    requires ExactSqrt(m) && 0.0 <= dt
    ensures Dot(TetherImpulse(w, dt, m), Minus(w.fish.position, w.player.position)) >= 0.0
  {
    var diff := Minus(w.fish.position, w.player.position);
    var len := Length(diff, m);
    assert 0.0 <= len;
    var k := (dt * len) / 5000.0;
    assert 0.0 <= k by {
      if 0.0 < dt && 0.0 < len {
        ProductPositive(dt, len, dt * len);
      }
    }
    ScaledDot(diff, k);
  }

  /** Dot(diff * k, diff) == k * |diff|^2, which is non-negative for k >= 0. */
  lemma ScaledDot(v: Vec, k: real)
    requires 0.0 <= k
    ensures Dot(Times(v, k), v) >= 0.0
  {
    var xx, yy := v.x * v.x, v.y * v.y;
    assert (v.x * k) * v.x == k * xx;
    assert (v.y * k) * v.y == k * yy;
    FractionOf(k, 1.0, k);
    assert 0.0 <= xx && 0.0 <= yy by {
      assert xx == Sq(v.x) && yy == Sq(v.y);
    }
    assert 0.0 <= k * xx + k * yy by {
      assert k * xx + k * yy == k * (xx + yy);
      if 0.0 < k && 0.0 < xx + yy {
        ProductPositive(k, xx + yy, k * (xx + yy));
      }
    }
  }

  /** A tick never changes the fish's health. */
  lemma TickKeepsHealth(w: World, keys: map<string, bool>, dt: real, m: MathFns, terrain: Map, bounds: (Vec, Vec))
    requires terrain.GridValid()
    ensures Tick(w, keys, dt, m, terrain, bounds).fish.health == w.fish.health
    ensures Tick(w, keys, dt, m, terrain, bounds).fish.maxHealth == w.fish.maxHealth
  {
  }

  /** A stuck, active harpoon ends the tick on the fish's position from the
      start of the tick, one fish step behind the fish. */
  lemma StuckHarpoonLags(w: World, keys: map<string, bool>, dt: real, m: MathFns, terrain: Map, bounds: (Vec, Vec))
    requires terrain.GridValid()
    requires w.harpoon.active && w.harpoon.attached
    ensures Tick(w, keys, dt, m, terrain, bounds).harpoon.position == w.fish.position
  {
  }

  /** Pressing w and s together, or neither, leaves the velocity alone. */
  lemma OpposedKeysCancel(w: World, keys: map<string, bool>, dt: real, m: MathFns)
    requires Pressed(keys, "w") == Pressed(keys, "s")
    ensures InputPhase(w, keys, dt, m).player.velocity == w.player.velocity
  {
  }

  /** Example launch speeds: no charge gives the minimum 50, two units give
      200, ten give the maximum 400. */
  lemma LaunchSpeedExamples()
    ensures LaunchSpeed(0.0) == 50.0 && LaunchSpeed(2.0) == 200.0 && LaunchSpeed(10.0) == 400.0
  {
  }

  /** With an exact square root, a throw at a point other than the boat's
      position leaves the boat at exactly the launch speed relative to it. */
  lemma LaunchAtLaunchSpeed(p: PlayerState, mouse: Vec, camera: Vec, m: MathFns)
    requires ExactSqrt(m)
    requires Minus(Plus(mouse, camera), p.position) != Zero
    ensures Minus(Launch(p, mouse, camera, m).velocity, p.velocity).LengthSQ() == Sq(LaunchSpeed(p.chargingTime))
  {
    var diffToMouse := Minus(Plus(mouse, camera), p.position);
    var u := Normalised(diffToMouse, m);
    var k := LaunchSpeed(p.chargingTime);
    AddSubRoundTrip(Times(u, k), p.velocity);
    NormalisedUnit(diffToMouse, m);
    ScaledLength(u, k);
  }

  /** |v * k|^2 == k^2 * |v|^2, here for a unit v. */
  lemma ScaledLength(v: Vec, k: real)
    requires v.LengthSQ() == 1.0
    ensures Times(v, k).LengthSQ() == Sq(k)
  {
    assert Sq(v.x * k) == Sq(v.x) * Sq(k);
    assert Sq(v.y * k) == Sq(v.y) * Sq(k);
    assert Sq(v.x) * Sq(k) + Sq(v.y) * Sq(k) == (Sq(v.x) + Sq(v.y)) * Sq(k);
  }

  /** A right click disarms the following left release; a left click
      followed by a release throws at the minimum speed. */
  lemma ClickSequences(w: World, mouse: Vec, camera: Vec, m: MathFns)
    ensures MouseUpEffect(MouseDownEffect(w, 2), 0, mouse, camera, m) == MouseDownEffect(w, 2)
    ensures var t := MouseUpEffect(MouseDownEffect(w, 0), 0, mouse, camera, m);
      t.harpoon.active && !t.harpoon.attached && t.harpoon.position == w.player.position
      && t.player.charging
    ensures LaunchSpeed(MouseDownEffect(w, 0).player.chargingTime) == 50.0
  {
  }

  /** The frame time falls as frames get slower: the loop hands logic the
      reciprocal of the elapsed milliseconds. */
  lemma FrameTimeFalls(a: int, b: int)
    requires 0 < a < b
    ensures 0.0 < FrameTime(b) < FrameTime(a)
  {
    var fa, fb := FrameTime(a), FrameTime(b);
    var ra, rb := a as real, b as real;
    assert fa * ra == 1.0 && fb * rb == 1.0;
    SignOfProduct(fb, rb, fb * rb);
    SignOfProduct(fb, rb - ra, fb * (rb - ra));
    assert fb * ra == fb * rb - fb * (rb - ra);
    SignOfProduct(fa - fb, ra, (fa - fb) * ra);
    assert (fa - fb) * ra == fa * ra - fb * ra;
  }

  // ------------------------------------------------------------------ class

  class Game {
    var keyPresses: map<string, bool>
    var previousTime: int
    const terrain: Map
    const player: Player
    const harpoon: Harpoon
    const fish: Fish
    const bounds: (Vec, Vec)

    /** The object graph game.ts builds: one boat, one harpoon tied to it,
        one fish on the map, six separate vectors, and the harpoon stuck in
        nothing or in this fish. */
    ghost predicate Valid()
      reads harpoon, terrain.lowerPixels, terrain.upperPixels
    {
      harpoon.player == player && fish.harpoon == harpoon && fish.terrain == terrain && terrain.player == player
      && (harpoon.attachedTo == null || harpoon.attachedTo == fish)
      && terrain.Valid() && bounds == WorldBounds(terrain.size)
      && Separate(player.position, player.velocity, harpoon.position, harpoon.velocity, fish.position, fish.velocity)
    }

    function Snapshot(): World
      reads player, player.position, player.velocity, harpoon, harpoon.position, harpoon.velocity,
            fish, fish.position, fish.velocity
    {
      World(player.Snapshot(), harpoon.Snapshot(), fish.Snapshot())
    }

    /** The constructor's game: a 5000-wide world on a 500-cell grid, the boat
        at rest, the harpoon stowed, the fish 400 to the left of the origin.
        Its final call to loop is left to the host, which calls Loop. */
    constructor (noise: (real, real) -> real, now: int)
      ensures Valid()
      ensures keyPresses == map[] && previousTime == now
      ensures terrain.size == 5000.0 && terrain.pixelSize == 500
      ensures forall i, j :: 0 <= i < 500 && 0 <= j < 500 ==> terrain.data[i][j] == Density(noise, i, j)
      ensures Snapshot() == World(
        PlayerState(Zero, Zero, 0.0, false, 0.0, false),
        HarpoonState(false, Zero, Zero, 0.0, false),
        FishState(Vec(-400.0, 0.0), Zero, PI * 1.6, 50.0, 100.0, 3.0, 10.0, 120000.0, 120000.0))
    {
      var p := new Player();
      var h := new Harpoon(p);
      var t := new Map(5000.0, 500, p, noise);
      var f := new Fish(-400.0, 0.0, t, h);
      keyPresses := map[];
      previousTime := now;
      player := p;
      harpoon := h;
      terrain := t;
      fish := f;
      bounds := (Vec(-t.size / 2.0, -t.size / 2.0), Vec(t.size / 2.0, t.size / 2.0));
    }

    /** keydown */
    method KeyDown(key: string)
      modifies this`keyPresses
      ensures keyPresses == old(keyPresses)[key := true]
    {
      keyPresses := keyPresses[key := true];
    }

    /** keyup */
    method KeyUp(key: string)
      modifies this`keyPresses
      ensures keyPresses == old(keyPresses)[key := false]
    {
      keyPresses := keyPresses[key := false];
    }

    method MouseDown(button: int)
      requires Valid()
      modifies player`charging, player`chargingTime, harpoon`active, harpoon`attachedTo
      ensures Valid()
      ensures Snapshot() == MouseDownEffect(old(Snapshot()), button)
    {
      if button == 0 {
        player.charging := true;
        player.chargingTime := 0.0;
      } else if button == 2 {
        player.charging := false;
        harpoon.active := false;
        harpoon.attachedTo := null;
      }
    }

    /** mouseup, with the mouse position (already taken relative to the
        canvas centre) and the camera offset as values. */
    method MouseUp(button: int, mouse: Vec, camera: Vec, m: MathFns)
      requires Valid()
      modifies harpoon
      ensures Valid()
      ensures Snapshot() == MouseUpEffect(old(Snapshot()), button, mouse, camera, m)
    {
      var mousePos := new Vec2(mouse.x, mouse.y);
      var cameraPos := new Vec2(camera.x, camera.y);
      if button == 0 {
        if player.charging {
          Throw(mousePos, cameraPos, m);
        }
      }
    }

    /** Throw the harpoon from the boat. */
    method Throw(mousePos: Vec2, cameraPos: Vec2, m: MathFns)
      requires Valid()
      modifies harpoon
      ensures Valid()
      ensures Snapshot() == old(Snapshot()).(harpoon := Launch(player.Snapshot(), old(mousePos.Value()), old(cameraPos.Value()), m))
    {
      harpoon.position := player.position.Clone();
      harpoon.active := true;
      harpoon.attachedTo := null;

      var angle, vel := Aim(mousePos, cameraPos, m);
      harpoon.velocity := vel;
      harpoon.angle := angle;
    }

    /** The throw's heading and velocity, from the boat towards the mouse
        position shifted by the camera. */
    method Aim(mousePos: Vec2, cameraPos: Vec2, m: MathFns) returns (angle: real, vel: Vec2)
      requires Valid()
      ensures fresh(vel)
      ensures angle == Launch(player.Snapshot(), mousePos.Value(), cameraPos.Value(), m).angle
      ensures vel.Value() == Launch(player.Snapshot(), mousePos.Value(), cameraPos.Value(), m).velocity
    {
      var launchSpeed := player.chargingTime * 100.0;
      launchSpeed := Clamp(launchSpeed, 50.0, 400.0);

      var aim := Vec2.AddVec(mousePos, cameraPos);
      var diffToMouse := Vec2.SubtractVec(aim, player.position);

      angle := AngleOf(diffToMouse.Value(), m);
      var dir := Vec2.NormaliseVec(diffToMouse, m);
      vel := Vec2.MultiplyVec(dir, launchSpeed);
      vel.Add(player.velocity);
    }

    /** loop: time the frame, then run logic with the guarded frame time. */
    method Loop(now: int, m: MathFns)
      requires Valid()
      modifies this`previousTime, player, player.position, player.velocity, harpoon, harpoon.position,
               fish`angle, fish.position, fish.velocity
      ensures Valid() && previousTime == now
      ensures Snapshot() == Tick(old(Snapshot()), keyPresses, FrameTime(now - old(previousTime)), m, terrain, bounds)
    {
      var delta := now - previousTime;
      previousTime := now;
      var frameTime := if delta != 0 then 1.0 / delta as real else 0.0;
      Logic(frameTime, m);
    }

    method Logic(dt: real, m: MathFns)
      requires Valid()
      modifies player, player.position, player.velocity, harpoon, harpoon.position,
               fish`angle, fish.position, fish.velocity
      ensures Valid()
      ensures Snapshot() == Tick(old(Snapshot()), keyPresses, dt, m, terrain, bounds)
    {
      AdvanceAll(dt, m);
      SettleAll(dt, m);
    }

    /** The moving half of logic. */
    method AdvanceAll(dt: real, m: MathFns)
      requires Valid()
      modifies player, player.position, player.velocity, harpoon`position, harpoon.position,
               fish`angle, fish.position, fish.velocity
      ensures Valid()
      ensures Snapshot() == Advance(old(Snapshot()), keyPresses, dt, m, terrain, bounds)
    {
      MovePlayer(dt, m);
      ghost var w1 := Snapshot();
      MoveHarpoon(dt);
      MoveFish(dt, m);
      assert Snapshot() == FishPhase(HarpoonPhase(w1, dt), terrain, dt, m);
    }

    /** The resolving half of logic. */
    method SettleAll(dt: real, m: MathFns)
      requires Valid()
      modifies player`dead, player.velocity, harpoon`attachedTo, harpoon`active, fish.velocity
      ensures Valid()
      ensures Snapshot() == Settle(old(Snapshot()), dt, m, terrain)
    {
      ghost var w := Snapshot();
      ResolveHarpoon(m);
      ApplyTether(dt, m);
      CheckCrash();
      assert Snapshot() == Crash(Tether(Resolve(w, m), dt, m), terrain);
    }

    /** The boat's part of logic: keys, its own step, the clamp to bounds. */
    method MovePlayer(dt: real, m: MathFns)
      requires Valid()
      modifies player, player.position, player.velocity
      ensures Valid()
      ensures Snapshot() == BoundsPhase(PlayerPhase(InputPhase(old(Snapshot()), keyPresses, dt, m), dt), bounds)
    {
      Steer(dt, m);
      ghost var w := Snapshot();
      player.Logic(dt);
      assert Snapshot() == PlayerPhase(w, dt);
      ClampPlayer();
    }

    /** The harpoon's part of logic: only an active harpoon is stepped. */
    method MoveHarpoon(dt: real)
      requires Valid()
      modifies harpoon`position, harpoon.position
      ensures Valid()
      ensures Snapshot() == HarpoonPhase(old(Snapshot()), dt)
    {
      if harpoon.active {
        harpoon.Logic(dt);
      }
    }

    /** The fish's part of logic, which sees whether the harpoon is stuck. */
    method MoveFish(dt: real, m: MathFns)
      requires Valid()
      modifies fish`angle, fish.position, fish.velocity
      ensures Valid()
      ensures Snapshot() == FishPhase(old(Snapshot()), terrain, dt, m)
    {
      fish.Logic(dt, m);
    }

    /** The keyboard part of logic. */
    method Steer(dt: real, m: MathFns)
      requires Valid()
      modifies player`angle, player.velocity
      ensures Valid()
      ensures Snapshot() == InputPhase(old(Snapshot()), keyPresses, dt, m)
    {
      Turn(dt);
      var push := PushAmount();
      Thrust(push, dt, m);
    }

    /** The forward and back keys, scaled by the acceleration space selects. */
    method PushAmount() returns (push: real)
      ensures push == PushFactor(keyPresses)
    {
      var accel := if Pressed(keyPresses, " ") then 50.0 else 20.0;
      var d := 0.0;
      if Pressed(keyPresses, "w") {
        d := d + 1.0;
      }
      if Pressed(keyPresses, "s") {
        d := d - 1.0;
      }
      push := d * accel;
    }

    /** Push the boat along its heading. */
    method Thrust(push: real, dt: real, m: MathFns)
      requires Valid()
      modifies player.velocity
      ensures Valid()
      ensures Snapshot() == old(Snapshot()).(player := old(Snapshot()).player.(velocity :=
        Plus(old(player.velocity.Value()), Times(Times(OfAngle(player.angle, m), push), dt))))
    {
      var dir := Vec2.VecOfAngle(player.angle, m);
      var acceleration := Vec2.MultiplyVec(dir, push);
      var deltaAccel := Vec2.MultiplyVec(acceleration, dt);
      Accelerate(deltaAccel);
    }

    /** The turning keys. */
    method Turn(dt: real)
      requires Valid()
      modifies player`angle
      ensures Valid()
      ensures Snapshot() == old(Snapshot()).(player := old(Snapshot()).player.(angle := SteeredAngle(old(player.angle), keyPresses, dt)))
    {
      if Pressed(keyPresses, "a") {
        player.angle := player.angle - 1.0 * dt;
      }
      if Pressed(keyPresses, "d") {
        player.angle := player.angle + 1.0 * dt;
      }
    }

    /** The boat's velocity gains the given vector; nothing else changes. */
    method Accelerate(v: Vec2)
      requires Valid()
      modifies player.velocity
      ensures Valid()
      ensures Snapshot() == old(Snapshot()).(player := old(Snapshot()).player.(velocity := Plus(old(player.velocity.Value()), old(v.Value()))))
    {
      player.velocity.Add(v);
    }

    /** Keep the boat inside bounds. */
    method ClampPlayer()
      requires Valid()
      modifies player.position
      ensures Valid()
      ensures Snapshot() == BoundsPhase(old(Snapshot()), bounds)
    {
      player.position.x := Clamp(player.position.x, bounds.0.x, bounds.1.x);
      player.position.y := Clamp(player.position.y, bounds.0.y, bounds.1.y);
    }

    /** The attach-and-break part of logic. */
    method ResolveHarpoon(m: MathFns)
      requires Valid()
      modifies harpoon`attachedTo, harpoon`active
      ensures Valid()
      ensures Snapshot() == Resolve(old(Snapshot()), m)
    {
      if harpoon.active && harpoon.attachedTo == null {
        var dist := Distance(harpoon.position.Value(), fish.position.Value(), m);
        if dist < 30.0 {
          harpoon.attachedTo := fish;
        }
        var playerDist := Distance(harpoon.position.Value(), player.position.Value(), m);
        if playerDist > 500.0 {
          harpoon.active := false;
        }
      }
    }

    /** The tether part of logic. */
    method ApplyTether(dt: real, m: MathFns)
      requires Valid()
      modifies player.velocity, fish.velocity
      ensures Valid()
      ensures Snapshot() == Tether(old(Snapshot()), dt, m)
    {
      if harpoon.attachedTo != null {
        var diff := Vec2.SubtractVec(harpoon.attachedTo.position, player.position);
        var dist := Length(diff.Value(), m);
        var deltaDiff := Vec2.MultiplyVec(diff, (dt * dist) / 5000.0);
        ghost var pull := deltaDiff.Value();
        assert pull == TetherImpulse(old(Snapshot()), dt, m);
        Accelerate(deltaDiff);

        var fishDeltaDiff := Vec2.MultiplyVec(deltaDiff, -0.05);
        assert fishDeltaDiff.Value() == Times(pull, -0.05);
        PushFish(fishDeltaDiff);
      }
    }

    /** The fish's velocity gains the given vector; nothing else changes. */
    method PushFish(v: Vec2)
      requires Valid()
      modifies fish.velocity
      ensures Valid()
      ensures Snapshot() == old(Snapshot()).(fish := old(Snapshot()).fish.(velocity := Plus(old(fish.velocity.Value()), old(v.Value()))))
    {
      fish.velocity.Add(v);
    }

    /** The crash part of logic. */
    method CheckCrash()
      requires Valid()
      modifies player`dead, harpoon`attachedTo, harpoon`active
      ensures Valid()
      ensures Snapshot() == Crash(old(Snapshot()), terrain)
    {
      var playerData := terrain.DataAtWorldPos(player.position.Value());
      if playerData > 0.75 {
        player.dead := true;
        harpoon.attachedTo := null;
        harpoon.active := false;
      }
    }
  }

  /** Six pairwise different vector objects. */
  predicate Separate(a: Vec2, b: Vec2, c: Vec2, d: Vec2, e: Vec2, f: Vec2)
  {
    a != b && a != c && a != d && a != e && a != f
    && b != c && b != d && b != e && b != f
    && c != d && c != e && c != f
    && d != e && d != f
    && e != f
  }
}
