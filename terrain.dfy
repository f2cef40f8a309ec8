/** The terrain map (src/map.ts): a square density grid made from noise, two
    RGBA images painted from it, and the world-to-grid lookup that the fish
    and the game use to sense land. */
module Terrain {
  import opened Maths
  import opened Vectors
  import Players

  /** One byte of an image buffer (the Uint8ClampedArray of an ImageData). */
  newtype byte = b: int | 0 <= b < 256

  /** A colour stop: threshold, the four channels, and whether the segment
      from this stop to the next one blends (true) or is flat (false). */
  datatype Stop = Stop(threshold: real, r: real, g: real, b: real, a: real, blend: bool)

  datatype Colour = Colour(r: real, g: real, b: real, a: real)

  const Transparent: Colour := Colour(0.0, 0.0, 0.0, 0.0)

  /** The stop table: deep water, shallows, sand, sand blending into grass,
      grass blending into forest. */
  const Stops: seq<Stop> := [
    Stop(0.0, 64.0, 64.0, 243.0, 255.0, false),
    Stop(0.6, 113.0, 181.0, 226.0, 180.0, false),
    Stop(0.75, 255.0, 253.0, 109.0, 255.0, false),
    Stop(0.8, 255.0, 253.0, 109.0, 255.0, true),
    Stop(0.9, 52.0, 192.0, 71.0, 255.0, true),
    Stop(1.0, 56.0, 155.0, 69.0, 255.0, false)
  ]

  /** Thresholds strictly increase along the table. */
  ghost predicate Sorted(stops: seq<Stop>)
  {
    forall i, j :: 0 <= i < j < |stops| ==> stops[i].threshold < stops[j].threshold
  }

  /** Every channel of every stop is a valid byte value. */
  ghost predicate ChannelsInRange(stops: seq<Stop>)
  {
    forall i :: 0 <= i < |stops| ==> InRange(StopColour(stops[i]))
  }

  predicate InRange(c: Colour)
  {
    0.0 <= c.r <= 255.0 && 0.0 <= c.g <= 255.0 && 0.0 <= c.b <= 255.0 && 0.0 <= c.a <= 255.0
  }

  function StopColour(s: Stop): Colour
  {
    Colour(s.r, s.g, s.b, s.a)
  }

  lemma StopsWellFormed()
    ensures Sorted(Stops)
    ensures ChannelsInRange(Stops)
  {
  }

  /** The colour of segment k (from stop k to stop k + 1) at density n. */
  function SegmentColour(stops: seq<Stop>, k: nat, n: real): Colour
    requires Sorted(stops) && k + 1 < |stops|
  {
    var lower, upper := stops[k], stops[k + 1];
    if lower.blend then
      var d := (n - lower.threshold) / (upper.threshold - lower.threshold);
      Colour(Lerp(lower.r, upper.r, d), Lerp(lower.g, upper.g, d),
             Lerp(lower.b, upper.b, d), Lerp(lower.a, upper.a, d))
    else
      StopColour(lower)
  }

  /** The loop of colourLerp from index i on: the first segment whose closed
      interval holds n decides; past the last segment the colour is
      transparent black. */
  function ColourFrom(stops: seq<Stop>, n: real, i: nat): Colour
    requires Sorted(stops)
    decreases |stops| - i
  {
    if i + 1 >= |stops| then Transparent
    else if n >= stops[i].threshold && n <= stops[i + 1].threshold then SegmentColour(stops, i, n)
    else ColourFrom(stops, n, i + 1)
  }

  /** colourLerp over the game's stop table. Every colour it yields is made
      of valid byte values, and densities outside [0, 1] are transparent. */
  function ColourLerp(n: real): (c: Colour)
    ensures InRange(c)
    ensures n < 0.0 || n > 1.0 ==> c == Transparent
  {
    StopsWellFormed();
    ColourRange(Stops, n, 0);
    if n < 0.0 || n > 1.0 then ColourOutside(Stops, n, 0); ColourFrom(Stops, n, 0)
    else ColourFrom(Stops, n, 0)
  }

  /** With a blend factor d in [0, 1] and stops of valid bytes, a segment's
      colour is made of valid bytes. */
  lemma SegmentRange(stops: seq<Stop>, k: nat, n: real)
    requires Sorted(stops) && ChannelsInRange(stops) && k + 1 < |stops|
    requires stops[k].threshold <= n <= stops[k + 1].threshold
    ensures InRange(SegmentColour(stops, k, n))
  {
    var lower, upper := stops[k], stops[k + 1];
    assert InRange(StopColour(lower)) && InRange(StopColour(upper));
    if lower.blend {
      QuotientInUnit(n - lower.threshold, upper.threshold - lower.threshold);
    }
  }

  /** 0 <= a <= b with b > 0 gives a / b in [0, 1]. */
  lemma QuotientInUnit(a: real, b: real)
    requires 0.0 <= a <= b && 0.0 < b
    ensures 0.0 <= a / b <= 1.0
  {
    var q := a / b;
    assert q * b == a;
    if q > 1.0 {
      ProductPositive(q - 1.0, b, (q - 1.0) * b);
    }
    if q < 0.0 {
      ProductPositive(-q, b, -q * b);
    }
  }

  lemma {:induction false} ColourRange(stops: seq<Stop>, n: real, i: nat)
    requires Sorted(stops) && ChannelsInRange(stops)
    ensures InRange(ColourFrom(stops, n, i))
    decreases |stops| - i
  {
    if i + 1 >= |stops| {
    } else if n >= stops[i].threshold && n <= stops[i + 1].threshold {
      SegmentRange(stops, i, n);
    } else {
      ColourRange(stops, n, i + 1);
    }
  }

  /** Below the first threshold or above the last one, no segment holds n. */
  lemma {:induction false} ColourOutside(stops: seq<Stop>, n: real, i: nat)
    requires Sorted(stops) && 0 < |stops|
    requires n < stops[0].threshold || n > stops[|stops| - 1].threshold
    ensures ColourFrom(stops, n, i) == Transparent
    decreases |stops| - i
  {
    if i + 1 < |stops| {
      assert i == 0 || stops[0].threshold < stops[i].threshold;
      assert i + 1 == |stops| - 1 || stops[i + 1].threshold < stops[|stops| - 1].threshold;
      ColourOutside(stops, n, i + 1);
    }
  }

  /** The first segment holding n wins: if n lies in segment k, and strictly
      above its lower threshold unless k is the first segment, the scan
      started at any i <= k returns segment k's colour. On a shared
      threshold the lower segment therefore decides. */
  lemma {:induction false} ColourInSegment(stops: seq<Stop>, n: real, k: nat, i: nat)
    requires Sorted(stops) && k + 1 < |stops| && i <= k
    requires stops[k].threshold <= n <= stops[k + 1].threshold
    requires k == 0 || stops[k].threshold < n
    ensures ColourFrom(stops, n, i) == SegmentColour(stops, k, n)
    decreases k - i
  {
    if i < k {
      assert stops[i + 1].threshold < n by {
        if i + 1 < k {
          assert stops[i + 1].threshold < stops[k].threshold;
        }
      }
      ColourInSegment(stops, n, k, i + 1);
    }
  }

  /** A flat segment shows its lower stop's colour throughout; a blending
      one starts at the lower stop's colour and ends at the upper stop's. */
  lemma SegmentEnds(stops: seq<Stop>, k: nat, n: real)
    requires Sorted(stops) && k + 1 < |stops|
    ensures !stops[k].blend ==> SegmentColour(stops, k, n) == StopColour(stops[k])
    ensures SegmentColour(stops, k, stops[k].threshold) == StopColour(stops[k])
    ensures stops[k].blend ==> SegmentColour(stops, k, stops[k + 1].threshold) == StopColour(stops[k + 1])
  {
    var lower, upper := stops[k], stops[k + 1];
    var w := upper.threshold - lower.threshold;
    assert (lower.threshold - lower.threshold) / w == 0.0;
    assert (upper.threshold - lower.threshold) / w == 1.0;
  }

  /** At the shared threshold 0.6 the deep-water segment decides, so the
      colour is stop 0's, not the shallows'. */
  lemma ColourAtShallowsThreshold()
    ensures ColourLerp(0.6) == Colour(64.0, 64.0, 243.0, 255.0)
  {
    StopsWellFormed();
    ColourInSegment(Stops, 0.6, 0, 0);
  }

  /** 0.8 still belongs to the flat sand segment; the two blends end on
      the grass colour at 0.9 and the forest colour at 1.0. */
  lemma ColourAtSegmentEnds()
    ensures ColourLerp(0.8) == Colour(255.0, 253.0, 109.0, 255.0)
    ensures ColourLerp(0.9) == Colour(52.0, 192.0, 71.0, 255.0)
    ensures ColourLerp(1.0) == Colour(56.0, 155.0, 69.0, 255.0)
  {
    StopsWellFormed();
    ColourInSegment(Stops, 0.8, 2, 0);
    SegmentEnds(Stops, 2, 0.8);
    ColourInSegment(Stops, 0.9, 3, 0);
    SegmentEnds(Stops, 3, 0.9);
    ColourInSegment(Stops, 1.0, 4, 0);
    SegmentEnds(Stops, 4, 1.0);
  }

  /** The conversion a Uint8ClampedArray applies on assignment: clamp to
      [0, 255], then round to the nearest integer, ties to even. */
  function ClampedByte(v: real): (b: byte)
    ensures 0.0 <= v <= 255.0 ==> -0.5 <= b as real - v <= 0.5
    ensures v < 0.0 ==> b == 0
    ensures v > 255.0 ==> b == 255
    ensures v == v.Floor as real && 0.0 <= v <= 255.0 ==> b as real == v
    ensures 0.0 <= v <= 255.0 && v - v.Floor as real == 0.5 ==> b as int % 2 == 0
  {
    var x := Clamp(v, 0.0, 255.0);
    var f := x.Floor;
    var frac := x - f as real;
    if frac < 0.5 then f as byte
    else if frac > 0.5 then (f + 1) as byte
    else if f % 2 == 0 then f as byte
    else (f + 1) as byte
  }

  /** The four bytes of one image pixel. */
  datatype Pixel = Pixel(r: byte, g: byte, b: byte, a: byte)

  /** The pixel the lower image shows for density d. */
  function LowerPixel(d: real): Pixel
  {
    var c := ColourLerp(d);
    Pixel(ClampedByte(c.r), ClampedByte(c.g), ClampedByte(c.b), ClampedByte(c.a))
  }

  /** The pixel the upper image shows for density d (everything below the
      shallows threshold is made fully transparent). */
  function UpperPixel(d: real): Pixel
  {
    var p := LowerPixel(d);
    if d < 0.6 then p.(a := 0) else p
  }

  function PixelOf(d: real, upper: bool): Pixel
  {
    if upper then UpperPixel(d) else LowerPixel(d)
  }

  /** The two images agree on colour everywhere and on opacity from 0.6 up;
      the upper one is transparent below 0.6. */
  lemma ImagesAgree(d: real)
    ensures UpperPixel(d).r == LowerPixel(d).r && UpperPixel(d).g == LowerPixel(d).g
    ensures UpperPixel(d).b == LowerPixel(d).b
    ensures d < 0.6 ==> UpperPixel(d).a == 0
    ensures d >= 0.6 ==> UpperPixel(d).a == LowerPixel(d).a
  {
  }

  /** Deep water below the threshold is opaque in the lower image: it keeps
      stop 0's alpha of 255 there. */
  lemma DeepWaterOpaqueBelow(d: real)
    requires 0.0 <= d < 0.6
    ensures LowerPixel(d).a == 255 && UpperPixel(d).a == 0
  {
    StopsWellFormed();
    ColourInSegment(Stops, d, 0, 0);
  }

  /** Offset of channel c of grid cell (i, j) in an image of ps * ps pixels:
      row j, column i, four bytes per pixel. */
  function PixelIndex(ps: nat, i: nat, j: nat, c: nat): nat
  {
    j * (ps * 4) + i * 4 + c
  }

  /** Every pixel of the grid lies inside a buffer of ps * ps * 4 bytes. */
  lemma PixelIndexBound(ps: nat, i: nat, j: nat)
    requires i < ps && j < ps
    ensures PixelIndex(ps, i, j, 0) + 4 <= ps * ps * 4
  {
    assert PixelIndex(ps, i, j, 0) == 4 * (j * ps + i);
    ProductAtMost(j, ps, ps - 1, j * ps);
    assert (ps - 1) * ps + ps == ps * ps;
  }

  /** k == a * b with 0 <= a <= c and b >= 0 gives k <= c * b. */
  lemma ProductAtMost(a: nat, b: nat, c: nat, k: nat)
    requires a <= c && k == a * b
    ensures k <= c * b
  {
    assert c * b - k == (c - a) * b;
  }

  /** Two different cells own disjoint four-byte ranges. */
  lemma CellsApart(ps: nat, i: nat, j: nat, i2: nat, j2: nat)
    requires i < ps && i2 < ps && (i, j) != (i2, j2)
    ensures PixelIndex(ps, i, j, 0) + 4 <= PixelIndex(ps, i2, j2, 0)
         || PixelIndex(ps, i2, j2, 0) + 4 <= PixelIndex(ps, i, j, 0)
  {
    CellOffset(ps, i, j);
    CellOffset(ps, i2, j2);
    if j < j2 {
      RowsApart(ps, j, j2);
    } else if j2 < j {
      RowsApart(ps, j2, j);
    }
  }

  /** A pixel's offset is four times its position in row-major order. */
  lemma CellOffset(ps: nat, i: nat, j: nat)
    ensures PixelIndex(ps, i, j, 0) == 4 * (j * ps + i)
  {
    assert j * (ps * 4) == 4 * (j * ps);
  }

  /** A later row starts at least a full row later. */
  lemma RowsApart(ps: nat, j: nat, j2: nat)
    requires j < j2
    ensures j * ps + ps <= j2 * ps
  {
    ProductAtMost(j + 1, ps, j2, (j + 1) * ps);
  }

  /** The four bytes of cell (i, j) in s hold pixel p. */
  predicate CellHolds(s: seq<byte>, ps: nat, i: nat, j: nat, p: Pixel)
  {
    var k := PixelIndex(ps, i, j, 0);
    k + 4 <= |s| && s[k] == p.r && s[k + 1] == p.g && s[k + 2] == p.b && s[k + 3] == p.a
  }

  /** A grid of ps columns of ps densities each. */
  ghost predicate IsGrid(data: seq<seq<real>>, ps: nat)
  {
    |data| == ps && forall i :: 0 <= i < ps ==> |data[i]| == ps
  }

  /** Every cell before (i, j) in the painting order (column by column) holds
      its pixel. */
  ghost predicate PaintedUpTo(s: seq<byte>, ps: nat, data: seq<seq<real>>, upper: bool, i: nat, j: nat)
    requires IsGrid(data, ps)
  {
    forall i2, j2 :: 0 <= i2 < ps && 0 <= j2 < ps && (i2 < i || (i2 == i && j2 < j)) ==>
      CellHolds(s, ps, i2, j2, PixelOf(data[i2][j2], upper))
  }

  /** Painting cell (i, j) and touching nothing else extends PaintedUpTo. */
  lemma PaintStep(s: seq<byte>, t: seq<byte>, ps: nat, data: seq<seq<real>>, upper: bool, i: nat, j: nat)
    requires IsGrid(data, ps) && i < ps && j < ps
    requires PaintedUpTo(s, ps, data, upper, i, j)
    requires |t| == |s| && CellHolds(t, ps, i, j, PixelOf(data[i][j], upper))
    requires forall k :: 0 <= k < |s| && (k < PixelIndex(ps, i, j, 0) || PixelIndex(ps, i, j, 0) + 4 <= k) ==> t[k] == s[k]
    ensures PaintedUpTo(t, ps, data, upper, i, j + 1)
  {
    forall i2, j2 | 0 <= i2 < ps && 0 <= j2 < ps && (i2 < i || (i2 == i && j2 < j + 1))
      ensures CellHolds(t, ps, i2, j2, PixelOf(data[i2][j2], upper))
    {
      if (i2, j2) != (i, j) {
        CellsApart(ps, i, j, i2, j2);
        assert CellHolds(s, ps, i2, j2, PixelOf(data[i2][j2], upper));
      }
    }
  }

  /** The density of grid cell (i, j): three octaves of noise summed, mapped
      from [-1, 1] to [0, 1], and clamped, so it lies in [0, 1] whatever the
      noise returns, and is the plain remapped sum when that sum already
      lies in [-1, 1]. */
  function Density(noise: (real, real) -> real, i: nat, j: nat): (r: real)
    ensures 0.0 <= r <= 1.0
    ensures var sum := NoiseSum(noise, i, j); -1.0 <= sum <= 1.0 ==> r == (sum + 1.0) / 2.0
  {
    Clamp((NoiseSum(noise, i, j) + 1.0) / 2.0, 0.0, 1.0)
  }

  function NoiseSum(noise: (real, real) -> real, i: nat, j: nat): real
  {
    noise(i as real / 100.0, j as real / 100.0)
      + noise(i as real / 50.0, j as real / 50.0)
      + noise(i as real / 20.0, j as real / 20.0)
  }

  /** The grid-filling loops of the Map constructor. */
  method BuildGrid(noise: (real, real) -> real, ps: nat) returns (data: seq<seq<real>>)
    ensures IsGrid(data, ps)
    ensures forall i, j :: 0 <= i < ps && 0 <= j < ps ==> data[i][j] == Density(noise, i, j)
  {
    data := [];
    for i := 0 to ps
      invariant |data| == i
      invariant forall i2 :: 0 <= i2 < i ==> |data[i2]| == ps
      invariant forall i2, j2 :: 0 <= i2 < i && 0 <= j2 < ps ==> data[i2][j2] == Density(noise, i2, j2)
    {
      var row := [];
      for j := 0 to ps
        invariant |row| == j
        invariant forall j2 :: 0 <= j2 < j ==> row[j2] == Density(noise, i, j2)
      {
        var d := noise(i as real / 100.0, j as real / 100.0);
        d := d + noise(i as real / 50.0, j as real / 50.0);
        d := d + noise(i as real / 20.0, j as real / 20.0);
        d := (d + 1.0) / 2.0;
        d := Clamp(d, 0.0, 1.0);
        row := row + [d];
      }
      data := data + [row];
    }
  }

  /** Writes the four bytes of one pixel at offset k. */
  method WritePixel(a: array<byte>, k: nat, p: Pixel)
    requires k + 4 <= a.Length
    modifies a
    ensures a[k] == p.r && a[k + 1] == p.g && a[k + 2] == p.b && a[k + 3] == p.a
    ensures forall n :: 0 <= n < a.Length && (n < k || k + 4 <= n) ==> a[n] == old(a[n])
  {
    a[k] := p.r;
    a[k + 1] := p.g;
    a[k + 2] := p.b;
    a[k + 3] := p.a;
  }

  /** The lower image: every cell painted with the colour of its density. */
  method PaintLower(data: seq<seq<real>>, ps: nat) returns (a: array<byte>)
    requires IsGrid(data, ps)
    ensures fresh(a) && a.Length == ps * ps * 4
    ensures PaintedUpTo(a[..], ps, data, false, ps, 0)
  {
    a := new byte[ps * ps * 4](_ => 0);
    for i := 0 to ps
      invariant PaintedUpTo(a[..], ps, data, false, i, 0)
    {
      for j := 0 to ps
        invariant PaintedUpTo(a[..], ps, data, false, i, j)
      {
        var d := data[i][j];
        var colour := ColourLerp(d);
        PixelIndexBound(ps, i, j);
        var k := PixelIndex(ps, i, j, 0);
        ghost var s := a[..];
        WritePixel(a, k, Pixel(ClampedByte(colour.r), ClampedByte(colour.g), ClampedByte(colour.b), ClampedByte(colour.a)));
        PaintStep(s, a[..], ps, data, false, i, j);
      }
    }
  }

  /** The upper image: painted like the lower one, then made transparent
      wherever the density is below 0.6. */
  method PaintUpper(data: seq<seq<real>>, ps: nat) returns (a: array<byte>)
    requires IsGrid(data, ps)
    ensures fresh(a) && a.Length == ps * ps * 4
    ensures PaintedUpTo(a[..], ps, data, true, ps, 0)
  {
    a := new byte[ps * ps * 4](_ => 0);
    for i := 0 to ps
      invariant PaintedUpTo(a[..], ps, data, true, i, 0)
    {
      for j := 0 to ps
        invariant PaintedUpTo(a[..], ps, data, true, i, j)
      {
        var d := data[i][j];
        var colour := ColourLerp(d);
        PixelIndexBound(ps, i, j);
        var k := PixelIndex(ps, i, j, 0);
        ghost var s := a[..];
        WritePixel(a, k, Pixel(ClampedByte(colour.r), ClampedByte(colour.g), ClampedByte(colour.b), ClampedByte(colour.a)));
        if d < 0.6 {
          a[k + 3] := 0;
        }
        PaintStep(s, a[..], ps, data, true, i, j);
      }
    }
  }

  class Map {
    const size: real
    const pixelSize: nat
    const scale: real
    const data: seq<seq<real>>
    const player: Players.Player
    const lowerPixels: array<byte>
    const upperPixels: array<byte>

    /** The facts about the grid that lookups rely on. */
    ghost predicate GridValid()
    {
      0.0 < size && 0 < pixelSize && scale == size / pixelSize as real
      && IsGrid(data, pixelSize)
      && forall i, j :: 0 <= i < pixelSize && 0 <= j < pixelSize ==> 0.0 <= data[i][j] <= 1.0
    }

    /** The grid facts plus both images painted from the grid. */
    ghost predicate Valid()
      reads lowerPixels, upperPixels
    {
      GridValid()
      && lowerPixels.Length == pixelSize * pixelSize * 4
      && upperPixels.Length == pixelSize * pixelSize * 4
      && PaintedUpTo(lowerPixels[..], pixelSize, data, false, pixelSize, 0)
      && PaintedUpTo(upperPixels[..], pixelSize, data, true, pixelSize, 0)
    }

    constructor (size: real, pixelSize: nat, player: Players.Player, noise: (real, real) -> real)
      requires 0.0 < size && 0 < pixelSize
      ensures Valid()
      ensures this.size == size && this.pixelSize == pixelSize && this.player == player
      ensures forall i, j :: 0 <= i < pixelSize && 0 <= j < pixelSize ==> data[i][j] == Density(noise, i, j)
      ensures fresh(lowerPixels) && fresh(upperPixels)
    {
      this.scale := size / pixelSize as real;
      this.size := size;
      this.pixelSize := pixelSize;
      var grid := BuildGrid(noise, pixelSize);
      this.data := grid;
      var lower := PaintLower(grid, pixelSize);
      this.lowerPixels := lower;
      this.player := player;
      var upper := PaintUpper(grid, pixelSize);
      this.upperPixels := upper;
    }

    /** Grid index of a world coordinate. */
    function CellOf(w: real): int
      requires GridValid()
    {
      ((w + size / 2.0) / scale).Floor
    }

    /** The world square the grid covers, left and top edges included. */
    predicate OnGrid(pos: Vec)
    {
      -size / 2.0 <= pos.x < size / 2.0 && -size / 2.0 <= pos.y < size / 2.0
    }

    /** dataAtWorldPos: 10 exactly off the grid square, otherwise a density
        in [0, 1] (that of the cell holding the position, see LookupCell). */
    function DataAtWorldPos(pos: Vec): (r: real)
      requires GridValid()
      ensures r == 10.0 <==> !OnGrid(pos)
      ensures r != 10.0 ==> 0.0 <= r <= 1.0
    {
      var dataX := CellOf(pos.x);
      var dataY := CellOf(pos.y);
      CellRange(pos.x);
      CellRange(pos.y);
      if dataX < 0 || dataX >= pixelSize || dataY < 0 || dataY >= pixelSize then 10.0
      else data[dataX][dataY]
    }

    /** A coordinate's cell index is on the grid exactly when the coordinate
        lies in [-size / 2, size / 2). */
    lemma CellRange(w: real)
      requires GridValid()
      ensures 0 <= CellOf(w) < pixelSize <==> -size / 2.0 <= w < size / 2.0
    {
      var t := (w + size / 2.0) / scale;
      assert 0.0 < scale by {
        assert 0.0 < pixelSize as real;
      }
      assert t * scale == w + size / 2.0;
      assert pixelSize as real * scale == size;
      ScaledOrder(t, scale, 0.0, w + size / 2.0, 0.0);
      ScaledOrder(t, scale, pixelSize as real, w + size / 2.0, size);
    }

    /** The cell a coordinate falls in covers it: cell k spans
        [k * scale - size / 2, (k + 1) * scale - size / 2). */
    lemma CellCovers(w: real)
      requires GridValid()
      ensures CellOf(w) as real * scale - size / 2.0 <= w < (CellOf(w) + 1) as real * scale - size / 2.0
    {
      var t := (w + size / 2.0) / scale;
      var k := CellOf(w) as real;
      assert 0.0 < scale by {
        assert 0.0 < pixelSize as real;
      }
      assert t * scale == w + size / 2.0;
      assert k <= t < k + 1.0;
      ScaledOrder(t, scale, k, w + size / 2.0, k * scale);
      ScaledOrder(t, scale, k + 1.0, w + size / 2.0, (k + 1.0) * scale);
      assert (CellOf(w) + 1) as real == k + 1.0;
    }

    /** On the grid square the lookup reads the cell the position falls in. */
    lemma LookupCell(pos: Vec)
      requires GridValid() && OnGrid(pos)
      ensures 0 <= CellOf(pos.x) < pixelSize && 0 <= CellOf(pos.y) < pixelSize
      ensures DataAtWorldPos(pos) == data[CellOf(pos.x)][CellOf(pos.y)]
    {
      CellRange(pos.x);
      CellRange(pos.y);
    }

    /** The right and bottom edges of the world square read as off the grid. */
    lemma FarEdgeIsOff(pos: Vec)
      requires GridValid()
      requires pos.x == size / 2.0 || pos.y == size / 2.0
      ensures DataAtWorldPos(pos) == 10.0
    {
    }
  }

  /** For positive s, t compares to c as ts == t * s compares to cs == c * s. */
  lemma ScaledOrder(t: real, s: real, c: real, ts: real, cs: real)
    requires 0.0 < s && ts == t * s && cs == c * s
    ensures t < c <==> ts < cs
    ensures t <= c <==> ts <= cs
  {
    if t < c {
      ProductPositive(c - t, s, (c - t) * s);
    } else if t > c {
      ProductPositive(t - c, s, (t - c) * s);
    }
  }
}
