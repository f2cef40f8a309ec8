# flail-whale: a verified model of the simulation

flail-whale is a small browser game. The player steers a boat over a procedurally
generated sea, charges and throws a harpoon at a whale, and is towed by the
tether once the harpoon sticks. The boat is wrecked if it runs onto sand or land.
This project models the game's simulation logic in Dafny and proves properties
of it. The rendering is not modelled.

The model has six modules. Each follows one or two source files.

| module | file | source | form |
|---|---|---|---|
| `Maths` | maths.dfy | src/Utilities/maths.ts | functions |
| `Vectors` | vectors.dfy | src/Utilities/vectors.ts | value type `Vec` with functions; class `Vec2` with in-place methods |
| `Terrain` | terrain.dfy | src/map.ts | functions for the colour stops; loop methods over arrays for the grid and images; class `Map` |
| `Players` | player.dfy | src/player.ts | value `PlayerState` with a step function; class `Player` |
| `Hunt` | hunt.dfy | src/harpoon.ts and src/fish.ts | values and step functions; classes `Harpoon` and `Fish` |
| `Game` | game.dfy | src/game.ts | value `World` with one function per tick phase and `Tick`; class `Game` with the handlers and `Logic` |

## How the model is built

- **Classes prove against value functions.** Each class whose fields the game
  updates in place has a `Snapshot()`, the value it currently holds. Each of its
  methods is proved to move that value by a step function. For example:
  - `Player.Logic` moves it by `PlayerStep`.
  - `Game.Logic` ensures `Snapshot() == Tick(old(Snapshot()), …)`.
  The lemmas then state what the game promises about those functions.
- **Shared vectors are objects.** Positions and velocities are `Vec2` objects,
  shared and mutated as in the source. `Vec2.Add` states its aliased case
  (`v.add(v)` doubles). `Game.Valid` states that the six vectors of the boat,
  harpoon and fish are separate objects.
- **Numbers are `real`.** `Math.floor` is `.Floor`.
- **Host functions are parameters.**
  - `MathFns` carries `Math.sqrt`, `Math.cos`, `Math.sin` and `Math.atan2` as
    function values.
  - `ExactSqrt(m)` is the one property of `sqrt` that some lemmas assume.
  - The noise function, `perlin2` of src/Utilities/perlin.ts, is a parameter of
    the `Map` constructor. src/Utilities/perlin.ts is not part of this model.
- **`lerp` is assumed.** map.ts imports `lerp` from the maths module, but
  src/Utilities/maths.ts defines no `lerp`. `Maths.Lerp` is the
  usual `a + (b - a) * t`.
- **The image buffers are `array<byte>`.** They stand for the `Uint8ClampedArray`
  of an `ImageData`. A store of a real number first clamps it to [0, 255], then
  rounds it to the nearest integer, with ties going to the even one
  (`Terrain.ClampedByte`).
- **`map` is renamed `terrain`.** The field `map` of `Fish` (and the game's map)
  cannot keep its name, because `map` is a Dafny keyword. The same applies to the
  game's field `then`, which is modelled as `previousTime`.
- **The boat starts at the origin.** `new Player(-200, 0, Math.PI)` in game.ts
  passes arguments that the constructor in player.ts does not take, and
  JavaScript ignores them. The model follows player.ts: the boat starts at the
  origin, at rest, with heading 0.
- **`dead` starts false.** The flag is not declared in player.ts, so it starts
  out undefined, which is falsy. The model starts it as false.
- **The long-range probes can reverse the short-range turn.** In fish.ts the
  long-range corrections are added after the short-range rule. An off-grid
  long right probe reads the sentinel 10. It then takes away more than
  on-grid readings of the two left probes can add, whatever the short right
  probe reads, so the net turn goes to smaller angles (`Hunt.SentinelOutweighsLeft`;
  `Hunt.SentinelReversesTurn` is one such input with short-left above 0.7).
  With both long probes on the grid, a short
  left reading above 0.7 always gives a net turn to larger angles
  (`Hunt.TurnsAwayOnGrid`).
- **Directions.** The canvas's y axis points down, so a larger angle is a
  clockwise turn on screen. The fish's left probes look at angle − 0.15π, and a
  positive turn takes it to larger angles, away from those probes. The key a
  turns the boat to smaller angles and d to larger ones.

## Model

| member | source | states |
|---|---|---|
| Maths.Clamp | src/Utilities/maths.ts:1-3 | the result lies in [lo, hi] when lo <= hi; x is returned unchanged when it is already in range; below or above the range gives the nearer end; when lo > hi the outer max wins and the result is lo |
| Maths.ClampIdempotent | src/Utilities/maths.ts:1-3 | clamping twice gives the same as clamping once |
| Maths.Sq | src/Utilities/maths.ts:13-15 | a square is non-negative, and zero exactly for zero |
| Maths.Lerp | src/map.ts:22-27 | the interpolation starts at a (t = 0), ends at b (t = 1) and stays between them for t in [0, 1] |
| Vectors.Vec.LengthSQ | src/Utilities/vectors.ts:43-45 | the squared length is non-negative, and zero exactly for the zero vector |
| Vectors.DistanceSQ | src/Utilities/vectors.ts:58-60 | the squared distance is non-negative, and zero exactly when the points are equal |
| Vectors.DistanceSQSymmetric | src/Utilities/vectors.ts:58-60 | the squared distance does not depend on the order of its arguments |
| Vectors.AddSubRoundTrip | src/Utilities/vectors.ts:15-23 | adding a vector and then subtracting it gives back the original |
| Vectors.TimesOne | src/Utilities/vectors.ts:25-28 | scaling by 1 changes nothing |
| Vectors.LerpEnds | src/Utilities/vectors.ts:47-52 | lerp at 0 is the first vector, lerp at 1 the second |
| Vectors.LengthSQIsDot | src/Utilities/vectors.ts:98-100 | the squared length is the dot product of a vector with itself |
| Vectors.NormalisedZero | src/Utilities/vectors.ts:92-96 | normalising the zero vector gives the zero vector, whatever sqrt returns |
| Vectors.NormalisedUnit | src/Utilities/vectors.ts:92-96 | with an exact square root, a nonzero vector normalises to squared length 1 |
| Vectors.DistanceVersusBound | src/Utilities/vectors.ts:54-60 | with an exact square root, distance < c (or > c) exactly when the squared distance is < c*c (or > c*c), for c > 0 |
| Vectors.Plus | src/Utilities/vectors.ts:76-78 | the componentwise sum (addVec, and add on values); Minus undoes it (`AddSubRoundTrip`) |
| Vectors.Minus | src/Utilities/vectors.ts:80-82 | the componentwise difference (subtractVec, and sub on values); it undoes Plus (`AddSubRoundTrip`) |
| Vectors.Times | src/Utilities/vectors.ts:84-86 | each component scaled by k (multiplyVec, and multiply on values); a factor of 1 is the identity (`TimesOne`) |
| Vectors.Over | src/Utilities/vectors.ts:88-90 | each component divided by a nonzero k (divideVec, and divide on values) |
| Vectors.Dot | src/Utilities/vectors.ts:98-100 | the dot product; of a vector with itself it is the squared length (`LengthSQIsDot`) |
| Vectors.LerpVec | src/Utilities/vectors.ts:47-52 | the componentwise blend one·(1 − t) + two·t; it is `one` at 0 and `two` at 1 (`LerpEnds`) |
| Vectors.Length | src/Utilities/vectors.ts:39-41 | Math.sqrt of the squared length; under an exact square root, a throw with a nonzero aim leaves at the launch speed relative to the boat, i.e. its velocity minus the boat's has that length (`Game.LaunchAtLaunchSpeed`) |
| Vectors.Distance | src/Utilities/vectors.ts:54-56 | Math.sqrt of the squared distance; comparing it with c > 0 is comparing the squared distance with c² (`DistanceVersusBound`) |
| Vectors.AngleOf | src/Utilities/vectors.ts:62-64 | the heading atan2(y, x) measured from the direction atan2(1, 0), with atan2 a parameter |
| Vectors.OfAngle | src/Utilities/vectors.ts:66-68 | the vector (cos a, sin a), with cos and sin parameters |
| Vectors.Rotated | src/Utilities/vectors.ts:70-74 | the unit vector at the argument's heading plus the angle, composed from AngleOf and OfAngle as rotateVec does |
| Vectors.Normalised | src/Utilities/vectors.ts:92-96 | the vector unchanged when its computed length is 0, otherwise divided by that length; zero stays zero (`NormalisedZero`) and a nonzero vector gets squared length 1 under an exact square root (`NormalisedUnit`) |
| Vectors.Vec2.constructor | src/Utilities/vectors.ts:10-13 | the new vector holds the given coordinates |
| Vectors.Vec2.Add | src/Utilities/vectors.ts:15-18 | the fields become the old sums; when the argument is the same object the vector doubles, otherwise the argument is unchanged |
| Vectors.Vec2.Sub | src/Utilities/vectors.ts:20-23 | the fields become the old differences; when the argument is the same object the vector becomes zero, otherwise the argument is unchanged |
| Vectors.Vec2.Multiply | src/Utilities/vectors.ts:25-28 | both fields are scaled by k; k = 1 leaves the vector unchanged |
| Vectors.Vec2.Divide | src/Utilities/vectors.ts:30-33 | both fields are divided by k |
| Vectors.Vec2.Clone | src/Utilities/vectors.ts:35-37 | a fresh object with equal fields |
| Vectors.Vec2.Lerp | src/Utilities/vectors.ts:47-52 | a fresh vector holding the interpolation of the two values |
| Vectors.Vec2.VecOfAngle | src/Utilities/vectors.ts:66-68 | a fresh vector (cos, sin) of the angle |
| Vectors.Vec2.RotateVec | src/Utilities/vectors.ts:70-74 | a fresh vector of (cos, sin) at the argument's heading plus the angle |
| Vectors.Vec2.AddVec | src/Utilities/vectors.ts:76-78 | a fresh vector holding the sum; the arguments are unchanged |
| Vectors.Vec2.SubtractVec | src/Utilities/vectors.ts:80-82 | a fresh vector holding the difference; the arguments are unchanged |
| Vectors.Vec2.MultiplyVec | src/Utilities/vectors.ts:84-86 | a fresh vector holding the scaled value; the argument is unchanged |
| Vectors.Vec2.DivideVec | src/Utilities/vectors.ts:88-90 | a fresh vector holding the divided value; the argument is unchanged |
| Vectors.Vec2.NormaliseVec | src/Utilities/vectors.ts:92-96 | a fresh vector holding the normalised value (a copy when the length is zero) |
| Players.PlayerStep | src/player.ts:22-31 | the boat's logic on values: move by velocity·dt, damp the velocity by 1 − 0.1·dt, advance the timer while charging; its properties are `PlayerStepZero`, `PlayerStepAtRest`, `PlayerStepTimer` and `PlayerStepDamps` |
| Players.PlayerStepZero | src/player.ts:22-26 | a step of zero leaves position and velocity unchanged |
| Players.PlayerStepAtRest | src/player.ts:22-26 | a boat at rest stays where it is and at rest, for any step |
| Players.PlayerStepTimer | src/player.ts:28-30 | the charge timer gains exactly dt while charging and nothing otherwise; heading, charging flag and crash flag are unchanged |
| Players.PlayerStepDamps | src/player.ts:26 | for steps in [0, 20] the damping never increases the speed |
| Players.Player.constructor | src/player.ts:12-20 | a new boat rests at the origin with heading 0, not charging, timer 0, in two fresh vectors |
| Players.Player.Logic | src/player.ts:22-31 | the boat moves by the old velocity times dt, then the velocity is damped by 1 - 0.1*dt, and the timer advances while charging |
| Terrain.StopColour | src/map.ts:29 | the four colour channels of a stop; with every stop in [0, 255] (`StopsWellFormed`) it is a valid colour |
| Terrain.SegmentColour | src/map.ts:20-29 | a blended segment interpolates its two stops by the density's position between their thresholds, a flat one shows its lower stop; `SegmentRange` and `SegmentEnds` state its range and ends |
| Terrain.ColourFrom | src/map.ts:16-32 | the loop of colourLerp from index i: the first segment holding n decides, otherwise transparent; `ColourRange`, `ColourOutside` and `ColourInSegment` state its range, its outside case and which segment decides |
| Terrain.NoiseSum | src/map.ts:55-57 | the three noise octaves at (i/100, j/100), (i/50, j/50) and (i/20, j/20), summed; `Density` maps it into [0, 1] |
| Terrain.LowerPixel | src/map.ts:67-73 | colourLerp of the density, each channel stored as a clamped byte (`ClampedByte`) |
| Terrain.UpperPixel | src/map.ts:91-101 | the lower pixel with alpha 0 below density 0.6; `ImagesAgree` and `DeepWaterOpaqueBelow` compare it with the lower one |
| Terrain.PixelOf | src/map.ts:64-103 | the pixel of the upper or the lower image; `PaintLower` and `PaintUpper` fill every cell with it |
| Terrain.StopsWellFormed | src/map.ts:6-13 | the stop table `Stops` (the six stops of map.ts) has strictly increasing thresholds and every channel in [0, 255] |
| Terrain.ColourLerp | src/map.ts:15-33 | every colour has channels in [0, 255]; a density below 0 or above 1 gives [0,0,0,0] |
| Terrain.SegmentRange | src/map.ts:20-29 | a segment's colour (flat or blended) has channels in [0, 255] |
| Terrain.ColourRange | src/map.ts:16-32 | the scan from any stop returns channels in [0, 255] |
| Terrain.ColourOutside | src/map.ts:16-32 | no segment holds a density outside the table's range, so the scan returns [0,0,0,0] |
| Terrain.ColourInSegment | src/map.ts:16-19 | the first segment holding n wins; on a shared threshold the lower segment decides |
| Terrain.SegmentEnds | src/map.ts:20-29 | a flat segment shows its lower stop's colour throughout; a blended one starts at the lower and ends at the upper stop's colour |
| Terrain.ColourAtShallowsThreshold | src/map.ts:16-29 | density 0.6 gives stop 0's colour [64,64,243,255] |
| Terrain.ColourAtSegmentEnds | src/map.ts:16-29 | 0.8 gives flat sand [255,253,109,255]; 0.9 gives stop 4's colour; 1.0 gives stop 5's colour |
| Terrain.ClampedByte | src/map.ts:70-73 | a stored byte is within 1/2 of an in-range value, exact for integers, even when the value lies exactly halfway between two integers, 0 below the range and 255 above it |
| Terrain.ImagesAgree | src/map.ts:94-101 | the two images agree on red, green and blue; the upper image's alpha is 0 below density 0.6 and the lower image's alpha otherwise |
| Terrain.DeepWaterOpaqueBelow | src/map.ts:99-101 | on deep water the lower image is opaque and the upper one fully transparent |
| Terrain.PixelIndexBound | src/map.ts:70-73 | every cell's four bytes lie inside the buffer of pixelSize*pixelSize*4 |
| Terrain.CellsApart | src/map.ts:70-73 | two different cells own disjoint groups of four bytes |
| Terrain.PaintStep | src/map.ts:65-75 | painting one cell keeps every earlier cell painted |
| Terrain.Density | src/map.ts:55-59 | every density is in [0, 1], whatever the noise returns; without clamping it is (sum + 1) / 2 |
| Terrain.BuildGrid | src/map.ts:51-62 | the grid has pixelSize rows of pixelSize cells, each the clamped density of its noise samples |
| Terrain.WritePixel | src/map.ts:70-73 | the four bytes of one cell are written and no other byte changes |
| Terrain.PaintLower | src/map.ts:64-75 | a fresh buffer of pixelSize*pixelSize*4 bytes with every cell holding its colour |
| Terrain.PaintUpper | src/map.ts:88-103 | the same, with alpha 0 on every cell of density below 0.6 |
| Terrain.Map.constructor | src/map.ts:46-113 | the map keeps size, pixelSize and player, its grid holds the densities, and both images are painted from the grid |
| Terrain.Map.CellOf | src/map.ts:134-135 | the floored grid index (w + size/2)/scale of a coordinate; `CellRange` and `CellCovers` state when it is on the grid and which interval it covers |
| Terrain.Map.DataAtWorldPos | src/map.ts:133-141 | the result is the sentinel 10 exactly when the position is off the grid, and otherwise in [0, 1] |
| Terrain.Map.CellRange | src/map.ts:134-137 | a floored index is in [0, pixelSize) exactly when the coordinate is in [-size/2, size/2) |
| Terrain.Map.CellCovers | src/map.ts:134-135 | a cell covers the world interval of width scale that the coordinate falls in |
| Terrain.Map.LookupCell | src/map.ts:137-141 | on the grid, the lookup returns data[dataX][dataY] with both indices in range |
| Terrain.Map.FarEdgeIsOff | src/map.ts:134-138 | a position on the right or bottom edge (x or y = size/2) reads as off the grid |
| Hunt.HarpoonStep | src/harpoon.ts:25-32 | harpoon.logic on values: a stuck harpoon takes the fish's position, a free one moves by velocity·dt; `HarpoonStepKeeps` and `HarpoonStepsCompose` state what it keeps and that free flight composes |
| Hunt.HarpoonStepKeeps | src/harpoon.ts:25-32 | a step never changes active, attached, angle or velocity |
| Hunt.HarpoonStepsCompose | src/harpoon.ts:26-31 | two steps equal one step of the summed time: there is no damping |
| Hunt.Harpoon.constructor | src/harpoon.ts:15-23 | a new harpoon is inactive, stuck in nothing, at zero with zero velocity and angle 0 |
| Hunt.Harpoon.Logic | src/harpoon.ts:25-32 | a stuck harpoon takes a fresh copy of the fish's position and leaves the fish unchanged; a free one adds velocity*dt to its own position vector |
| Hunt.Probe | src/fish.ts:65-72 | the map's reading at dist along the heading from the position |
| Hunt.Sense | src/fish.ts:42-72 | the six probes: short (200) and long (400) looks straight ahead, at +0.15π (right) and at −0.15π (left); each reads 10 or a density in [0, 1] (`SenseRange`) |
| Hunt.ShortTurn | src/fish.ts:74-80 | the short-range angle change: + shortLeft/0.7·dt above 0.7 on the left, else − shortRight/0.7·dt above 0.7 on the right, else (left − right)·0.5·dt; its sign is characterised by `ShortTurnSign` |
| Hunt.Truthy | src/fish.ts:82-85 | the truthiness of a number as the `if (longLeftD)` and `if (longRightD)` guards test it: nonzero |
| Hunt.LongTurn | src/fish.ts:82-87 | the long-range corrections under their truthiness guards; `LongTurnUnguarded` shows the guards change nothing |
| Hunt.Thrust | src/fish.ts:91-97 | the thrust along the heading: −speed·dt when close ahead, −0.1·speed·dt when further ahead and not the sentinel, else +speed·dt; its sign is characterised by `ThrustSign` |
| Hunt.SwimSpeed | src/fish.ts:89 | fearSpeed while hooked, speed otherwise |
| Hunt.ClampToWorld | src/fish.ts:107-108 | each coordinate clamped to [−size/2, size/2] |
| Hunt.FishStep | src/fish.ts:41-109 | fish.logic on values: turn, thrust along the old heading, integrate, damp and clamp; `FishStepInWorld` and `FishStepKeeps` state where it ends and what it keeps |
| Hunt.ShortTurnSign | src/fish.ts:74-80 | with dt > 0 the short-range rule turns to larger angles (away from the left probe) exactly when the left probe exceeds 0.7 or (right is at most 0.7 and left exceeds right), and to smaller angles exactly when left is at most 0.7 and right exceeds left |
| Hunt.LongTurnUnguarded | src/fish.ts:82-87 | the long-range corrections are ±(D/0.7)*0.25*dt; a zero probe adds nothing |
| Hunt.TurnsAwayOnGrid | src/fish.ts:74-87 | with both long probes on the grid, a short-left probe above 0.7 makes the net turn go to larger angles, away from the left probe |
| Hunt.SentinelReversesTurn | src/fish.ts:74-87 | an example: with short-left 0.9 (above 0.7) and the long-right sentinel 10, the net turn of a unit step goes to smaller angles |
| Hunt.SentinelOutweighsLeft | src/fish.ts:74-87 | for every dt > 0, with both left probes on the grid, the short right probe on the grid or the sentinel, and the long right probe the sentinel 10, the net turn goes to smaller angles |
| Hunt.ThrustSign | src/fish.ts:91-97 | the thrust is backwards exactly when the short front probe exceeds 0.7, or the long one does and is not the sentinel; a sentinel ahead gives forward thrust |
| Hunt.ThrustUsesFearSpeed | src/fish.ts:89 | a hooked fish swims at fearSpeed, a free one at speed |
| Hunt.FishStepInWorld | src/fish.ts:107-108 | after a step both coordinates of the fish are in [-size/2, size/2] |
| Hunt.FishStepKeeps | src/fish.ts:41-109 | a step never changes health, maxHealth, fat, long, speed or fearSpeed |
| Hunt.SenseRange | src/fish.ts:65-72 | each of the six probes reads 10 or a density in [0, 1] |
| Hunt.Fish.constructor | src/fish.ts:23-39 | a new fish is at (x, y) at rest with heading 1.6*PI, fat 50, long 100, speed 3, fearSpeed 10 and health = maxHealth = 120000 |
| Hunt.Fish.ProbeAt | src/fish.ts:65-72 | one probe reads the map at the point dist ahead along the heading |
| Hunt.Fish.Look | src/fish.ts:42-72 | the six probes are short and long looks ahead, right (+0.15*PI) and left (-0.15*PI) |
| Hunt.Fish.Turn | src/fish.ts:74-87 | the heading gains the short-range turn plus the long-range corrections |
| Hunt.Fish.Push | src/fish.ts:89-108 | the velocity gains the thrust along the old heading, then position and velocity integrate, damp and clamp |
| Hunt.Fish.Swim | src/fish.ts:92-108 | integration with the old velocity plus thrust, damping by 1 - 0.1*dt, and clamping to the world square |
| Hunt.Fish.Logic | src/fish.ts:41-109 | heading, velocity and position become those of the fish step on the six probes sensed at the start |
| Game.Pressed | src/game.ts:158-171 | a lookup in keyPresses as the tests `this.keyPresses[k]` read it: true only for a key recorded as pressed; a key never seen is undefined, hence false |
| Game.WorldBounds | src/game.ts:60-62 | the bounds pair: min (−size/2, −size/2) and max (size/2, size/2) |
| Game.SteeredAngle | src/game.ts:161-166 | the angle decreased by dt for a and increased by dt for d, the two together cancelling |
| Game.PushFactor | src/game.ts:158-176 | (w − s)·accel with accel 50 under space and 20 otherwise; `OpposedKeysCancel` uses its zero case |
| Game.InputPhase | src/game.ts:158-178 | the keyboard part of logic: steer, then accelerate along the new heading by PushFactor·dt |
| Game.PlayerPhase | src/game.ts:180 | the boat's own step (`Players.PlayerStep`) |
| Game.ClampToBounds | src/game.ts:181-182 | each coordinate clamped between the matching coordinates of bounds[0] and bounds[1]; with the world bounds the result lies in the world square (`TickKeepsPlayerInBounds`) |
| Game.BoundsPhase | src/game.ts:181-182 | the boat's position clamped to the bounds; `TickKeepsPlayerInBounds` states the result |
| Game.HarpoonPhase | src/game.ts:184-186 | only an active harpoon steps, towards the fish's position before the fish moves; `StuckHarpoonLags` states the lag |
| Game.FishPhase | src/game.ts:188 | the fish's step on the probes sensed from its position, knowing whether the harpoon is stuck |
| Game.Resolve | src/game.ts:190-199 | the attach (< 30 from the fish) and break (> 500 from the boat) tests of a flying harpoon; `ResolveAttach`, `ResolveBreak`, `AttachAndBreakTogether` and `ResolveBySquares` characterise it |
| Game.TetherImpulse | src/game.ts:202-204 | the vector to the fish scaled by dt·|diff|/5000; `TetherPullsTowardsFish` shows it points at the fish |
| Game.Tether | src/game.ts:201-209 | the pull added to the boat and −0.05 of it to the fish while the harpoon is stuck; `TetherRule` states it |
| Game.Crash | src/game.ts:211-216 | a boat on density above 0.75 (or off the grid) is wrecked and the harpoon dropped; `TickCrashRule` and `FarEdgeWrecks` state it after a tick |
| Game.Advance | src/game.ts:158-188 | the boat phases, then the harpoon, then the fish |
| Game.Settle | src/game.ts:190-216 | resolve, tether, crash, in that order |
| Game.Tick | src/game.ts:157-216 | logic on values, Advance then Settle; the Tick lemmas above state its properties and `Game.Game.Logic` is proved against it |
| Game.MouseDownEffect | src/game.ts:75-82 | button 0 starts charging from 0, button 2 stops charging and stows the harpoon, others change nothing; `ClickSequences` uses it |
| Game.Launch | src/game.ts:94-113 | the thrown harpoon: active, free, at the boat, heading AngleOf the aim, velocity the normalised aim times LaunchSpeed plus the boat's velocity; `LaunchAtLaunchSpeed` states its speed |
| Game.MouseUpEffect | src/game.ts:93-116 | a left release while charging launches, anything else changes nothing; `ClickSequences` uses it |
| Game.LaunchSpeed | src/game.ts:99-100 | the launch speed is in [50, 400], 100 per unit of charge in between, 50 below and 400 above |
| Game.FrameTime | src/game.ts:142 | the frame time is 0 when no time passed and otherwise the reciprocal of the delta |
| Game.TickKeepsPlayerInBounds | src/game.ts:181-182 | after a tick the boat is inside the world square |
| Game.TickCrashRule | src/game.ts:211-216 | after a tick the boat is wrecked exactly when it was already, or its final position reads above 0.75 (including off the grid); a wreck leaves the harpoon inactive and free |
| Game.FarEdgeWrecks | src/game.ts:181-216 | a boat clamped onto the right or bottom edge of the world reads the sentinel and is wrecked |
| Game.ResolveAttach | src/game.ts:190-194 | the harpoon ends stuck exactly when it was stuck, or it was flying and came closer than 30 to the fish |
| Game.ResolveBreak | src/game.ts:195-198 | the harpoon stays active exactly when it was active and either stuck or within 500 of the boat; nothing else changes |
| Game.AttachAndBreakTogether | src/game.ts:190-209 | both rules can fire in one tick; the harpoon is then stuck but inactive, and the tether still pulls |
| Game.ResolveBySquares | src/game.ts:190-198 | with an exact square root the two distance tests are squared-distance tests against 900 and 250000 |
| Game.TetherRule | src/game.ts:201-209 | the tether changes velocities only, the fish's change is -0.05 times the boat's, and nothing happens without a stuck harpoon |
| Game.TetherPullsTowardsFish | src/game.ts:202-205 | for dt >= 0 the pull on the boat points towards the fish |
| Game.TickKeepsHealth | src/game.ts:157-216 | a tick never changes the fish's health or maxHealth |
| Game.StuckHarpoonLags | src/game.ts:184-188 | a stuck, active harpoon ends the tick on the fish's position from the start of the tick |
| Game.OpposedKeysCancel | src/game.ts:167-178 | pressing w and s together, or neither, leaves the velocity unchanged |
| Game.LaunchSpeedExamples | src/game.ts:99-100 | no charge launches at 50, a charge of 2 at 200, a charge of 10 at 400 |
| Game.LaunchAtLaunchSpeed | src/game.ts:99-110 | with an exact square root the harpoon leaves at exactly the launch speed relative to the boat |
| Game.ClickSequences | src/game.ts:75-97 | a right click disarms the next left release; a left click then release throws from the boat at the minimum speed |
| Game.FrameTimeFalls | src/game.ts:142 | a slower frame gives a smaller (still positive) step |
| Game.Game.constructor | src/game.ts:52-62 | a 5000-wide world on a 500-cell grid whose every cell holds the density the noise gives it, the boat at rest at the origin, the harpoon stowed, the fish at (-400, 0), bounds the world square, no keys |
| Game.Game.KeyDown | src/game.ts:121-127 | the key is recorded as pressed |
| Game.Game.KeyUp | src/game.ts:128-134 | the key is recorded as released |
| Game.Game.MouseDown | src/game.ts:75-82 | the left button starts charging from 0; the right one stops charging, deactivates the harpoon and frees it |
| Game.Game.MouseUp | src/game.ts:93-116 | a left release while charging throws the harpoon (charging is not reset); anything else changes nothing |
| Game.Game.Throw | src/game.ts:94-113 | the harpoon becomes active and free, at a fresh copy of the boat's position, with the launch heading and velocity |
| Game.Game.Aim | src/game.ts:99-110 | the heading of the boat-to-mouse vector and the normalised vector times the launch speed plus the boat's velocity |
| Game.Game.Loop | src/game.ts:137-144 | the time is recorded and logic runs one tick with the guarded frame time |
| Game.Game.Logic | src/game.ts:157-216 | the boat, harpoon and fish move by one tick of the value model, keeping the object graph valid |
| Game.Game.AdvanceAll | src/game.ts:158-188 | the boat, then the harpoon, then the fish are stepped |
| Game.Game.SettleAll | src/game.ts:190-216 | attach and break, tether, crash, in that order |
| Game.Game.MovePlayer | src/game.ts:158-182 | keys, the boat's own step, the clamp to bounds |
| Game.Game.MoveHarpoon | src/game.ts:184-186 | only an active harpoon is stepped |
| Game.Game.MoveFish | src/game.ts:188 | the fish steps, seeing whether the harpoon is stuck |
| Game.Game.Steer | src/game.ts:158-178 | the keyboard turn, then the push along the new heading |
| Game.Game.PushAmount | src/game.ts:158-172 | w adds 1, s subtracts 1, times 50 with space and 20 without |
| Game.Game.Thrust | src/game.ts:174-178 | the boat's velocity gains heading * push * dt |
| Game.Game.Turn | src/game.ts:161-166 | a turns by -dt, d by +dt |
| Game.Game.Accelerate | src/game.ts:178 | the boat's velocity gains the given vector and nothing else changes |
| Game.Game.ClampPlayer | src/game.ts:181-182 | the boat's position is clamped to bounds |
| Game.Game.ResolveHarpoon | src/game.ts:190-199 | the attach and break tests of a flying harpoon |
| Game.Game.ApplyTether | src/game.ts:201-209 | a stuck harpoon pulls the boat towards the fish and the fish by -0.05 of that |
| Game.Game.PushFish | src/game.ts:207-208 | the fish's velocity gains the given vector and nothing else changes |
| Game.Game.CheckCrash | src/game.ts:211-216 | a boat over density above 0.75 is wrecked and the harpoon deactivated and freed |

## Left out

- Rendering is not modelled. This covers every `render` method, `renderLower` and
  `renderUpper`, the canvases, and `putImageData`. The two image buffers are
  plain byte arrays, zero-filled as `createImageData` leaves them.
- The DOM and event wiring are not modelled: the listeners, `requestAnimationFrame`,
  the FPS counter and `Date.now`.
  - The handlers are methods that take the button, key or time as a parameter.
  - `Game.Game.MouseUp` takes the mouse position already centred on the canvas.
    The source truncates it with `|`; the model does not.
  - The constructor's final call to `loop` is left to the host, which calls
    `Game.Game.Loop`.
- The camera is not modelled (src/game.ts:218-228). It is view state that
  depends on the canvas size. `Game.Game.MouseUp` takes the camera offset as a
  value.
- `captureDist` is only drawn, so it has no effect on the model.
- `Math.random` is not modelled, and neither is `getRandomNum`/`getRandomInt`,
  which use it. Nothing in the core depends on them.
- Floating point is not modelled. Numbers are exact reals, so IEEE rounding,
  infinities and NaN are absent. This also drops the NaN `console.log` in
  fish.ts.
- `Math.sqrt`, `Math.cos`, `Math.sin` and `Math.atan2` are taken as function
  values. Only `ExactSqrt` is assumed of them, and only where a lemma says so.
- `perlin2` is a parameter; src/Utilities/perlin.ts is not part of this model.
- Some preconditions exclude zero divisors that the source would turn into
  Infinity or NaN:
  - `Vectors.Vec2.Divide`, `Vectors.Vec2.DivideVec` and `Vectors.Over` require
    a nonzero divisor.
  - `Terrain.Map.constructor` requires `size > 0` and `pixelSize > 0`, and
    pixelSize is a natural number.
- `Terrain.Map.DataAtWorldPos` takes the position as a `Vec` value rather than a
  `Vec2` object, because it only reads it.
- `Hunt.Fish.Logic` states the new heading, velocity and position. Its
  `modifies` clause keeps every other field of the fish unchanged.
