/**
 * The shape generator: `generatePositions` fills a flat buffer of `count * 3` coordinates, point `i`
 * at indices `3i, 3i+1, 3i+2`, with one sampling rule per shape; TEXT samples the bright pixels of a
 * rasterised canvas instead.
 */
module Geometry {
  import opened Common
  import opened Types

  // ---------------------------------------------------------------------------
  // Buffer layout
  // ---------------------------------------------------------------------------

  /** Point `i` of a flat x,y,z buffer. */
  function Point3(buf: seq<real>, i: nat): Vec3
    requires 3 * i + 2 < |buf|
  {
    Vec3(buf[3 * i], buf[3 * i + 1], buf[3 * i + 2])
  }

  /** `buf` holds exactly the points `pts`, point `i` at indices `3i, 3i+1, 3i+2`. */
  predicate Layout(buf: seq<real>, pts: seq<Vec3>)
  {
    |buf| == 3 * |pts| && forall i :: 0 <= i < |pts| ==> Point3(buf, i) == pts[i]
  }

  /** A layout pins down every value of the buffer. */
  lemma LayoutUnique(b1: seq<real>, b2: seq<real>, pts: seq<Vec3>)
    requires Layout(b1, pts) && Layout(b2, pts)
    ensures b1 == b2
  {
    forall j | 0 <= j < |b1|
      ensures b1[j] == b2[j]
    {
      var i, a := j / 3, j % 3;
      assert j == 3 * i + a && 0 <= a < 3;
      assert Point3(b1, i) == Point3(b2, i);
    }
  }

  /** The buffer after writing point `i`. */
  function Put(buf: seq<real>, i: nat, p: Vec3): seq<real>
    requires 3 * i + 2 < |buf|
  {
    buf[3 * i := p.x][3 * i + 1 := p.y][3 * i + 2 := p.z]
  }

  lemma PutPoint(buf: seq<real>, i: nat, p: Vec3)
    requires 3 * i + 2 < |buf|
    ensures |Put(buf, i, p)| == |buf|
    ensures Point3(Put(buf, i, p), i) == p
    ensures forall j :: 0 <= j < |buf| / 3 && j != i ==> Point3(Put(buf, i, p), j) == Point3(buf, j)
  {
  }

  /** `a[i * 3] = p.x; a[i * 3 + 1] = p.y; a[i * 3 + 2] = p.z`. */
  method StorePoint(a: array<real>, i: nat, p: Vec3)
    requires 3 * i + 2 < a.Length
    modifies a
    ensures a[..] == Put(old(a[..]), i, p)
  {
    a[i * 3] := p.x;
    a[i * 3 + 1] := p.y;
    a[i * 3 + 2] := p.z;
  }

  // ---------------------------------------------------------------------------
  // Per-shape sampling rules (one point; `d` holds the point's `Math.random()` draws in call order)
  // ---------------------------------------------------------------------------

  /** How many times the rule for `kind` calls `Math.random()` per point. */
  function DrawCount(kind: ShapeType): nat
  {
    match kind
    case Sphere => 0
    case Helix => 0
    case Star => 4
    case Fire => 5
    case Tree => 2
    case Butterfly => 2
    case Text => 2
    case Cube => 3
    case Rain => 3
    case Flower => 3
    case Random => 3
    case Unlisted(_) => 3
  }

  /** three.js `Vector3.setFromSphericalCoords(radius, phi, theta)`. */
  function FromSpherical(radius: real, phi: real, theta: real, m: MathOps): Vec3
  {
    var sinPhiRadius := m.sin(phi) * radius;
    Vec3(sinPhiRadius * m.sin(theta), m.cos(phi) * radius, sinPhiRadius * m.cos(theta))
  }

  /** The argument SPHERE passes to `Math.acos` for index `i`. */
  function SphereArg(i: nat, count: nat): real
    requires i < count
  {
    -1.0 + (2 * i) as real / count as real
  }

  /** SPHERE's polar angle `acos(-1 + 2i/count)` and its golden-spiral azimuth `sqrt(count * PI) * phi`. */
  function SpherePhi(i: nat, count: nat, m: MathOps): real
    requires i < count
  {
    m.acos(SphereArg(i, count))
  }

  function SphereTheta(i: nat, count: nat, m: MathOps): real
    requires i < count
  {
    m.sqrt(count as real * PI) * SpherePhi(i, count, m)
  }

  function SpherePoint(i: nat, count: nat, m: MathOps): Vec3
    requires i < count
  {
    FromSpherical(12.0, SpherePhi(i, count, m), SphereTheta(i, count, m), m)
  }

  /** STAR draws a radius it never uses (`rStar`), then two angles, then the cubed distance. */
  function StarPoint(d: seq<real>, m: MathOps): Vec3
    requires |d| == 4
  {
    var thetaStar := 2.0 * PI * d[1];
    var phiStar := m.acos(2.0 * d[2] - 1.0);
    var dist := StarDist(d[3]);
    Vec3(dist * m.sin(phiStar) * m.cos(thetaStar),
         dist * m.sin(phiStar) * m.sin(thetaStar),
         dist * m.cos(phiStar))
  }

  /** STAR's radial distance `Math.pow(u, 3) * 15`, which packs points towards the centre. */
  function StarDist(u: real): real
  {
    u * u * u * 15.0
  }

  function CubePoint(d: seq<real>): Vec3
    requires |d| == 3
  {
    Vec3((d[0] - 0.5) * 20.0, (d[1] - 0.5) * 20.0, (d[2] - 0.5) * 20.0)
  }

  /** The sweep angle of HELIX for index `i` (without the strand offset). */
  function HelixAngle(i: nat, count: nat): real
    requires i < count
  {
    i as real / count as real * 10.0 * PI
  }

  /** Even indices form one strand, odd indices the other, half a turn away. */
  function HelixOffset(i: nat): real
  {
    if i % 2 == 0 then 0.0 else PI
  }

  function HelixPoint(i: nat, count: nat, m: MathOps): Vec3
    requires i < count
  {
    var t := HelixAngle(i, count);
    var yHelix := (i as real / count as real - 0.5) * 30.0;
    var radiusHelix := 8.0;
    var offset := HelixOffset(i);
    Vec3(m.cos(t + offset) * radiusHelix, yHelix, m.sin(t + offset) * radiusHelix)
  }

  /** The radial draw of RAIN. */
  function RainRadius(d: seq<real>): real
    requires |d| == 3
  {
    d[0] * 20.0
  }

  function RainPoint(d: seq<real>, m: MathOps): Vec3
    requires |d| == 3
  {
    var rRain := RainRadius(d);
    var thetaRain := d[1] * PI * 2.0;
    Vec3(rRain * m.cos(thetaRain), (d[2] - 0.5) * 40.0, rRain * m.sin(thetaRain))
  }

  /** The cone radius of FIRE, shrinking with the index. */
  function FireRadius(i: nat, count: nat, d: seq<real>): real
    requires i < count && |d| == 5
  {
    d[0] * 6.0 * (1.0 - i as real / count as real)
  }

  /** FIRE draws the radius, the height, the angle, then one extra spread for x and one for z. */
  function FirePoint(i: nat, count: nat, d: seq<real>, m: MathOps): Vec3
    requires i < count && |d| == 5
  {
    var rFire := FireRadius(i, count, d);
    var hFire := d[1] * 25.0 - 12.5;
    var thetaFire := d[2] * PI * 2.0;
    Vec3((rFire + d[3]) * m.cos(thetaFire), hFire, (rFire + d[4]) * m.sin(thetaFire))
  }

  /** The cone radius of TREE at the drawn height fraction `d[0]`. */
  function TreeRadius(d: seq<real>): real
    requires |d| == 2
  {
    (1.0 - d[0]) * 12.0
  }

  function TreePoint(d: seq<real>, m: MathOps): Vec3
    requires |d| == 2
  {
    var treeHeight := 30.0;
    var treeR := TreeRadius(d);
    var treeTheta := d[1] * PI * 2.0;
    Vec3(treeR * m.cos(treeTheta), d[0] * treeHeight - treeHeight / 2.0, treeR * m.sin(treeTheta))
  }

  /** The four-petal rose radius plus its jitter. */
  function FlowerRadius(d: seq<real>, m: MathOps): real
    requires |d| == 3
  {
    var flowerTheta := d[0] * PI * 2.0;
    12.0 * Abs(m.cos(4.0 * flowerTheta)) + 2.0 * d[1]
  }

  function FlowerPoint(d: seq<real>, m: MathOps): Vec3
    requires |d| == 3
  {
    var flowerTheta := d[0] * PI * 2.0;
    var rFlower := FlowerRadius(d, m);
    Vec3(rFlower * m.cos(flowerTheta), rFlower * m.sin(flowerTheta), (d[2] - 0.5) * 2.0)
  }

  function ButterflyPoint(d: seq<real>, m: MathOps): Vec3
    requires |d| == 2
  {
    var tBut := d[0] * 12.0 * PI;
    var s := m.sin(tBut / 12.0);
    var rBut := m.exp(m.cos(tBut)) - 2.0 * m.cos(4.0 * tBut) - s * s * s * s * s;
    var scale := 5.0;
    Vec3(rBut * m.cos(tBut) * scale, rBut * m.sin(tBut) * scale, (d[1] - 0.5) * 2.0)
  }

  /** RANDOM, and the `default` arm every unlisted kind falls into. */
  function BoxPoint(d: seq<real>): Vec3
    requires |d| == 3
  {
    Vec3((d[0] - 0.5) * 40.0, (d[1] - 0.5) * 40.0, (d[2] - 0.5) * 40.0)
  }

  /** The body of the `switch` in `generatePositions` for index `i`. */
  function ShapePoint(kind: ShapeType, i: nat, count: nat, d: seq<real>, m: MathOps): Vec3
    requires !kind.Text? && i < count && |d| == DrawCount(kind)
  {
    match kind
    case Sphere => SpherePoint(i, count, m)
    case Star => StarPoint(d, m)
    case Cube => CubePoint(d)
    case Helix => HelixPoint(i, count, m)
    case Rain => RainPoint(d, m)
    case Fire => FirePoint(i, count, d, m)
    case Tree => TreePoint(d, m)
    case Flower => FlowerPoint(d, m)
    case Butterfly => ButterflyPoint(d, m)
    case Random => BoxPoint(d)
    case Unlisted(_) => BoxPoint(d)
  }

  /** The points of a non-TEXT shape, point `i` using draws `k*i .. k*i+k-1` of the oracle. */
  function ShapePoints(kind: ShapeType, count: nat, rnd: Oracle, m: MathOps): seq<Vec3>
    requires !kind.Text?
  {
    var k := DrawCount(kind);
    seq(count, i requires 0 <= i < count => ShapePoint(kind, i, count, Draws(rnd, k * i, k), m))
  }

  // ---------------------------------------------------------------------------
  // TEXT: pixel scan and pixel-to-plane mapping
  // ---------------------------------------------------------------------------

  /** The side of the square offscreen canvas. */
  const CanvasSize: int := 512
  /** The scan visits every second column of every second row. */
  const SampleStep: int := 2
  /** A pixel is foreground when its red byte exceeds this. */
  const RedThreshold: int := 128

  /** What the browser draws for a string: RGBA bytes, row-major, or `None` when no 2D context exists. */
  type Rasterizer = string -> Option<seq<int>>

  datatype Pixel = Pixel(x: int, y: int)

  /** `data[index]`; reading past the end gives `undefined`, which is never above the threshold. */
  function Red(data: seq<int>, index: int): int
  {
    if 0 <= index < |data| then data[index] else 0
  }

  /** Where the red byte of pixel (x, y) sits in the RGBA data. */
  function PixelIndex(x: int, y: int): int
  {
    (y * CanvasSize + x) * 4
  }

  predicate Bright(data: seq<int>, x: int, y: int)
  {
    Red(data, PixelIndex(x, y)) > RedThreshold
  }

  /** What the scan of row `y` collects from the columns `0, 2, ...` below `xEnd`. */
  function RowScan(data: seq<int>, y: int, xEnd: int): seq<Pixel>
    decreases xEnd
  {
    if xEnd <= 0 then []
    else
      var x := xEnd - SampleStep;
      if Bright(data, x, y) then RowScan(data, y, x) + [Pixel(x, y)] else RowScan(data, y, x)
  }

  /** What the scan collects from the rows `0, 2, ...` below `yEnd`. */
  function GridScan(data: seq<int>, yEnd: int): seq<Pixel>
    decreases yEnd
  {
    if yEnd <= 0 then [] else GridScan(data, yEnd - SampleStep) + RowScan(data, yEnd - SampleStep, CanvasSize)
  }

  lemma RowScanStep(data: seq<int>, y: int, x: int)
    requires x >= 0
    ensures RowScan(data, y, x + SampleStep)
         == if Bright(data, x, y) then RowScan(data, y, x) + [Pixel(x, y)] else RowScan(data, y, x)
  {
  }

  lemma AppendAssoc<T>(a: seq<T>, b: seq<T>, c: seq<T>)
    ensures (a + b) + c == a + (b + c)
  {
  }

  lemma GridScanStep(data: seq<int>, y: int)
    requires y >= 0
    ensures GridScan(data, y + SampleStep) == GridScan(data, y) + RowScan(data, y, CanvasSize)
  {
  }

  /** `validPixels` after the whole scan. */
  function ValidPixels(data: seq<int>): seq<Pixel>
  {
    GridScan(data, CanvasSize)
  }

  /** A pixel the scan visits and keeps: on the even grid inside the canvas, with a bright red byte. */
  predicate Foreground(data: seq<int>, p: Pixel)
  {
    && 0 <= p.x < CanvasSize && p.x % 2 == 0
    && 0 <= p.y < CanvasSize && p.y % 2 == 0
    && Bright(data, p.x, p.y)
  }

  /** Row-major position of a pixel. */
  function RowMajor(p: Pixel): int
  {
    p.y * CanvasSize + p.x
  }

  predicate StrictlyRowMajor(s: seq<Pixel>)
  {
    forall a, b :: 0 <= a < b < |s| ==> RowMajor(s[a]) < RowMajor(s[b])
  }

  lemma ConcatRowMajor(s: seq<Pixel>, t: seq<Pixel>, bound: int)
    requires StrictlyRowMajor(s) && StrictlyRowMajor(t)
    requires forall a :: 0 <= a < |s| ==> RowMajor(s[a]) < bound
    requires forall b :: 0 <= b < |t| ==> bound <= RowMajor(t[b])
    ensures StrictlyRowMajor(s + t)
  {
    var u := s + t;
    forall a, b | 0 <= a < b < |u|
      ensures RowMajor(u[a]) < RowMajor(u[b])
    {
      if b < |s| {
        assert u[a] == s[a] && u[b] == s[b];
      } else if a >= |s| {
        assert u[a] == t[a - |s|] && u[b] == t[b - |s|];
      } else {
        assert u[a] == s[a] && u[b] == t[b - |s|];
      }
    }
  }

  lemma {:induction false} RowScanShape(data: seq<int>, y: int, xEnd: int)
    requires 0 <= y && 0 <= xEnd <= CanvasSize && xEnd % 2 == 0
    ensures forall p :: p in RowScan(data, y, xEnd) <==>
      p.y == y && 0 <= p.x < xEnd && p.x % 2 == 0 && Bright(data, p.x, p.y)
    ensures StrictlyRowMajor(RowScan(data, y, xEnd))
    ensures forall a :: 0 <= a < |RowScan(data, y, xEnd)| ==>
      y * CanvasSize <= RowMajor(RowScan(data, y, xEnd)[a]) < y * CanvasSize + xEnd
  {
    if xEnd > 0 {
      var x := xEnd - SampleStep;
      RowScanShape(data, y, x);
      var s := RowScan(data, y, x);
      if Bright(data, x, y) {
        var h := [Pixel(x, y)];
        assert RowScan(data, y, xEnd) == s + h;
        ConcatRowMajor(s, h, y * CanvasSize + x);
        forall a | 0 <= a < |s + h|
          ensures y * CanvasSize <= RowMajor((s + h)[a]) < y * CanvasSize + xEnd
        {
          if a < |s| { assert (s + h)[a] == s[a]; } else { assert (s + h)[a] == h[0]; }
        }
      } else {
        assert RowScan(data, y, xEnd) == s;
      }
    }
  }

  lemma {:induction false} GridScanShape(data: seq<int>, yEnd: int)
    requires 0 <= yEnd <= CanvasSize && yEnd % 2 == 0
    ensures forall p :: p in GridScan(data, yEnd) <==> Foreground(data, p) && p.y < yEnd
    ensures StrictlyRowMajor(GridScan(data, yEnd))
    ensures forall a :: 0 <= a < |GridScan(data, yEnd)| ==> RowMajor(GridScan(data, yEnd)[a]) < yEnd * CanvasSize
  {
    if yEnd > 0 {
      var y := yEnd - SampleStep;
      GridScanShape(data, y);
      RowScanShape(data, y, CanvasSize);
      var s := GridScan(data, y);
      var r := RowScan(data, y, CanvasSize);
      assert GridScan(data, yEnd) == s + r;
      ConcatRowMajor(s, r, y * CanvasSize);
      forall a | 0 <= a < |s + r|
        ensures RowMajor((s + r)[a]) < yEnd * CanvasSize
      {
        if a < |s| { assert (s + r)[a] == s[a]; } else { assert (s + r)[a] == r[a - |s|]; }
      }
    }
  }

  /**
   * `validPixels` holds exactly the even-grid pixels whose red byte exceeds 128, each once, in
   * row-major order.
   */
  lemma ValidPixelsExact(data: seq<int>)
    ensures forall p :: p in ValidPixels(data) <==> Foreground(data, p)
    ensures StrictlyRowMajor(ValidPixels(data))
  {
    GridScanShape(data, CanvasSize);
  }

  /** The index `Math.floor(Math.random() * n)`. */
  function PickIndex(r: real, n: nat): int
  {
    (r * n as real).Floor
  }

  lemma PickInRange(r: real, n: nat)
    requires 0.0 <= r < 1.0 && n > 0
    ensures 0 <= PickIndex(r, n) < n
  {
    assert r * n as real < n as real;
  }

  /** Canvas pixel to world plane: the canvas width spans 40 units, the vertical axis is inverted. */
  function PixelToPlane(p: Pixel, z: real): Vec3
  {
    var size := CanvasSize as real;
    Vec3((p.x as real - size / 2.0) / size * 40.0, -(p.y as real - size / 2.0) / size * 40.0, z)
  }

  /** One TEXT point: a foreground pixel drawn with replacement, then the depth jitter. */
  function TextPoint(valid: seq<Pixel>, d: seq<real>): Vec3
    requires |valid| > 0 && |d| == 2 && UnitDraws(d)
  {
    PickInRange(d[0], |valid|);
    var pixel := valid[PickIndex(d[0], |valid|)];
    PixelToPlane(pixel, (d[1] - 0.5) * 2.0)
  }

  /** The points `generateTextPositions` lays out for the given canvas contents. */
  function TextPoints(count: nat, canvas: Option<seq<int>>, rnd: Oracle, m: MathOps): seq<Vec3>
    requires UnitOracle(rnd)
  {
    match canvas
    case None => seq(count, _ => Vec3(0.0, 0.0, 0.0))
    case Some(data) =>
      var valid := ValidPixels(data);
      if |valid| == 0 then ShapePoints(Sphere, count, rnd, m) else TextSamples(valid, count, rnd)
  }

  /** `count` TEXT points, point `i` using draws `2i` (the pixel) and `2i+1` (the depth). */
  function TextSamples(valid: seq<Pixel>, count: nat, rnd: Oracle): seq<Vec3>
    requires |valid| > 0 && UnitOracle(rnd)
  {
    seq(count, i requires 0 <= i < count => TextPoint(valid, Draws(rnd, 2 * i, 2)))
  }

  /** The points `generatePositions(kind, count, text)` lays out. */
  function GeneratedPoints(kind: ShapeType, count: nat, text: string, render: Rasterizer, rnd: Oracle, m: MathOps)
    : seq<Vec3>
    requires UnitOracle(rnd)
  {
    if kind.Text? then TextPoints(count, render(text), rnd, m) else ShapePoints(kind, count, rnd, m)
  }

  // ---------------------------------------------------------------------------
  // The generator methods
  // ---------------------------------------------------------------------------

  method GeneratePositions(kind: ShapeType, count: nat, text: string, render: Rasterizer, rnd: Oracle, m: MathOps)
    returns (positions: array<real>)
    requires UnitOracle(rnd)
    ensures fresh(positions)
    ensures Layout(positions[..], GeneratedPoints(kind, count, text, render, rnd, m))
    decreases if kind.Text? then 2 else 0
  {
    positions := new real[count * 3](_ => 0.0);
    if kind.Text? {
      positions := GenerateTextPositions(text, count, render, rnd, m);
      return;
    }
    ghost var pts := ShapePoints(kind, count, rnd, m);
    var k := DrawCount(kind);
    var next: nat := 0;
    for i := 0 to count
      invariant next == k * i
      invariant forall j :: 0 <= j < i ==> Point3(positions[..], j) == pts[j]
    {
      var d := Draws(rnd, next, k);
      assert |d| == k;
      var p := ShapePoint(kind, i, count, d, m);
      next := next + k;
      PutPoint(positions[..], i, p);
      StorePoint(positions, i, p);
    }
  }

  /** The scan loop of `generateTextPositions`: visits the even grid row by row. */
  method ScanPixels(data: seq<int>) returns (validPixels: seq<Pixel>)
    ensures validPixels == ValidPixels(data)
  {
    validPixels := [];
    var y := 0;
    while y < CanvasSize
      invariant 0 <= y <= CanvasSize && y % 2 == 0
      invariant validPixels == GridScan(data, y)
    {
      ghost var rowsBefore := validPixels;
      var x := 0;
      while x < CanvasSize
        invariant 0 <= x <= CanvasSize && x % 2 == 0
        invariant validPixels == rowsBefore + RowScan(data, y, x)
      {
        var index := PixelIndex(x, y);
        RowScanStep(data, y, x);
        if Red(data, index) > RedThreshold {
          AppendAssoc(rowsBefore, RowScan(data, y, x), [Pixel(x, y)]);
          validPixels := validPixels + [Pixel(x, y)];
        }
        x := x + SampleStep;
      }
      GridScanStep(data, y);
      y := y + SampleStep;
    }
  }

  method GenerateTextPositions(text: string, targetCount: nat, render: Rasterizer, rnd: Oracle, m: MathOps)
    returns (positions: array<real>)
    requires UnitOracle(rnd)
    ensures fresh(positions)
    ensures Layout(positions[..], TextPoints(targetCount, render(text), rnd, m))
    decreases 1
  {
    var canvas := render(text);
    if canvas.None? {
      positions := new real[targetCount * 3](_ => 0.0);
      return;
    }
    var validPixels := ScanPixels(canvas.value);
    positions := new real[targetCount * 3](_ => 0.0);
    if |validPixels| == 0 {
      positions := GeneratePositions(Sphere, targetCount, "AI", render, rnd, m);
      return;
    }
    ghost var pts := TextSamples(validPixels, targetCount, rnd);
    assert pts == TextPoints(targetCount, canvas, rnd, m);
    var next: nat := 0;
    for i := 0 to targetCount
      invariant next == 2 * i
      invariant forall j :: 0 <= j < i ==> Point3(positions[..], j) == pts[j]
    {
      var pick := rnd(next);
      PickInRange(pick, |validPixels|);
      var pixel := validPixels[PickIndex(pick, |validPixels|)];
      var size := CanvasSize as real;
      var x := (pixel.x as real - size / 2.0) / size * 40.0;
      var y := -(pixel.y as real - size / 2.0) / size * 40.0;
      var z := (rnd(next + 1) - 0.5) * 2.0;
      ghost var d := Draws(rnd, next, 2);
      assert |d| == 2 && d[0] == pick && UnitDraws(d);
      assert Vec3(x, y, z) == PixelToPlane(pixel, z) == TextPoint(validPixels, d);
      next := next + 2;
      PutPoint(positions[..], i, Vec3(x, y, z));
      StorePoint(positions, i, Vec3(x, y, z));
    }
  }

  // ---------------------------------------------------------------------------
  // Properties of the generated buffers
  // ---------------------------------------------------------------------------

  /** Every shape yields exactly `count` points (`count * 3` coordinates), and none for `count == 0`. */
  lemma GeneratedLength(kind: ShapeType, count: nat, text: string, render: Rasterizer, rnd: Oracle, m: MathOps)
    requires UnitOracle(rnd)
    ensures |GeneratedPoints(kind, count, text, render, rnd, m)| == count
    ensures count == 0 ==> GeneratedPoints(kind, count, text, render, rnd, m) == []
  {
  }

  /** For a non-TEXT shape point `i` is the switch body for `i`, fed the `i`-th block of draws. */
  lemma GeneratedPoint(kind: ShapeType, count: nat, text: string, render: Rasterizer, rnd: Oracle, m: MathOps, i: nat)
    requires UnitOracle(rnd) && !kind.Text? && i < count
    ensures GeneratedPoints(kind, count, text, render, rnd, m)[i]
         == ShapePoint(kind, i, count, Draws(rnd, DrawCount(kind) * i, DrawCount(kind)), m)
  {
  }

  /** Without a 2D context TEXT yields a zero-filled buffer of the requested size. */
  lemma TextWithoutContext(count: nat, rnd: Oracle, m: MathOps, buf: seq<real>)
    requires UnitOracle(rnd)
    requires Layout(buf, TextPoints(count, None, rnd, m))
    ensures |buf| == 3 * count && forall j :: 0 <= j < |buf| ==> buf[j] == 0.0
  {
    forall j | 0 <= j < |buf|
      ensures buf[j] == 0.0
    {
      var i, a := j / 3, j % 3;
      assert j == 3 * i + a && 0 <= a < 3;
      assert Point3(buf, i) == Vec3(0.0, 0.0, 0.0);
    }
  }

  /** With no foreground pixel TEXT falls back to SPHERE. */
  lemma TextFallsBackToSphere(text: string, count: nat, render: Rasterizer, rnd: Oracle, m: MathOps)
    requires UnitOracle(rnd)
    requires render(text).Some? && ValidPixels(render(text).value) == []
    ensures GeneratedPoints(Text, count, text, render, rnd, m) == GeneratedPoints(Sphere, count, text, render, rnd, m)
  {
  }

  /**
   * With foreground pixels, every TEXT point is one of them mapped onto the plane, and lies in
   * x in [-20, 20), y in (-20, 20], z in [-1, 1).
   */
  lemma TextPointShape(text: string, count: nat, render: Rasterizer, rnd: Oracle, m: MathOps, i: nat)
    requires UnitOracle(rnd) && i < count
    requires render(text).Some? && ValidPixels(render(text).value) != []
    ensures var valid := ValidPixels(render(text).value);
            var p := GeneratedPoints(Text, count, text, render, rnd, m)[i];
            && (exists k :: 0 <= k < |valid| && Foreground(render(text).value, valid[k]) && p == PixelToPlane(valid[k], p.z))
            && -20.0 <= p.x < 20.0 && -20.0 < p.y <= 20.0 && -1.0 <= p.z < 1.0
  {
    var data := render(text).value;
    var valid := ValidPixels(data);
    ValidPixelsExact(data);
    var d := Draws(rnd, 2 * i, 2);
    var p := GeneratedPoints(Text, count, text, render, rnd, m)[i];
    assert p == TextPoint(valid, d);
    PickInRange(d[0], |valid|);
    var k := PickIndex(d[0], |valid|);
    assert valid[k] in valid;
    assert p == PixelToPlane(valid[k], p.z);
    PixelPlaneBounds(valid[k]);
  }

  lemma PixelPlaneBounds(q: Pixel)
    requires 0 <= q.x < CanvasSize && 0 <= q.y < CanvasSize
    ensures -20.0 <= PixelToPlane(q, 0.0).x < 20.0
    ensures -20.0 < PixelToPlane(q, 0.0).y <= 20.0
  {
  }

  /** SPHERE's `Math.acos` argument stays in [-1, 1) for every index. */
  lemma SphereArgInRange(i: nat, count: nat)
    requires i < count
    ensures -1.0 <= SphereArg(i, count) < 1.0
  {
    var q := (2 * i) as real / count as real;
    assert q * count as real == (2 * i) as real;
  }

  /** Squared distance from the origin. */
  function SqNorm(p: Vec3): real
  {
    p.x * p.x + p.y * p.y + p.z * p.z
  }

  /** Squared distance from the vertical (y) axis. */
  function PlanarSq(p: Vec3): real
  {
    p.x * p.x + p.z * p.z
  }

  /** SPHERE points lie on the surface of radius 12. */
  lemma SphereOnSurface(i: nat, count: nat, m: MathOps)
    requires Sound(m) && i < count
    ensures SqNorm(SpherePoint(i, count, m)) == 144.0
  {
    SphericalRadius(12.0, SpherePhi(i, count, m), SphereTheta(i, count, m), m);
  }

  lemma SphericalRadius(radius: real, phi: real, theta: real, m: MathOps)
    requires Sound(m)
    ensures SqNorm(FromSpherical(radius, phi, theta, m)) == radius * radius
  {
    UnitCircle(m, phi);
    UnitCircle(m, theta);
    SphericalAlgebra(radius, m.sin(phi), m.cos(phi), m.sin(theta), m.cos(theta));
  }

  lemma SphericalAlgebra(radius: real, sp: real, cp: real, st: real, ct: real)
    requires sp * sp + cp * cp == 1.0 && st * st + ct * ct == 1.0
    ensures SqNorm(Vec3(sp * radius * st, cp * radius, sp * radius * ct)) == radius * radius
  {
    CircleRadius(sp * radius, ct, st);
    CircleRadius(radius, cp, sp);
  }

  /** STAR points lie inside the ball of radius 15. */
  lemma StarInBall(d: seq<real>, m: MathOps)
    requires Sound(m) && |d| == 4 && UnitDraws(d)
    ensures SqNorm(StarPoint(d, m)) < 225.0
  {
    var thetaStar := 2.0 * PI * d[1];
    var phiStar := m.acos(2.0 * d[2] - 1.0);
    var dist := StarDist(d[3]);
    var sp, cp, st, ct := m.sin(phiStar), m.cos(phiStar), m.sin(thetaStar), m.cos(thetaStar);
    assert StarPoint(d, m) == Vec3(dist * sp * ct, dist * sp * st, dist * cp);
    UnitCircle(m, phiStar);
    UnitCircle(m, thetaStar);
    StarAlgebra(dist, sp, cp, st, ct);
    StarDistBelow(d[3]);
    SquareBelow(dist, 15.0);
  }

  lemma StarAlgebra(dist: real, sp: real, cp: real, st: real, ct: real)
    requires sp * sp + cp * cp == 1.0 && st * st + ct * ct == 1.0
    ensures SqNorm(Vec3(dist * sp * ct, dist * sp * st, dist * cp)) == dist * dist
  {
    CircleRadius(dist * sp, ct, st);
    CircleRadius(dist, cp, sp);
  }

  lemma StarDistBelow(u: real)
    requires 0.0 <= u < 1.0
    ensures 0.0 <= StarDist(u) < 15.0
  {
    assert 0.0 <= u * u <= u;
    assert 0.0 <= u * u * u <= u * u;
  }

  lemma SquareBelow(x: real, b: real)
    requires 0.0 <= x < b
    ensures x * x < b * b
  {
    var e := b - x;
    assert b * b == (x + e) * (x + e);
    assert (x + e) * (x + e) == x * x + 2.0 * x * e + e * e;
    assert e * e > 0.0;
    assert x * e >= 0.0;
  }

  /** CUBE coordinates lie in [-10, 10). */
  lemma CubeBounds(d: seq<real>)
    requires |d| == 3 && UnitDraws(d)
    ensures var p := CubePoint(d);
            -10.0 <= p.x < 10.0 && -10.0 <= p.y < 10.0 && -10.0 <= p.z < 10.0
  {
  }

  /** RANDOM and every unlisted kind give coordinates in [-20, 20). */
  lemma BoxBounds(kind: ShapeType, i: nat, count: nat, d: seq<real>, m: MathOps)
    requires (kind.Random? || kind.Unlisted?) && i < count && |d| == 3 && UnitDraws(d)
    ensures var p := ShapePoint(kind, i, count, d, m);
            -20.0 <= p.x < 20.0 && -20.0 <= p.y < 20.0 && -20.0 <= p.z < 20.0
  {
  }

  /** HELIX spans the vertical range [-15, 15). */
  lemma HelixHeight(i: nat, count: nat, m: MathOps)
    requires i < count
    ensures -15.0 <= HelixPoint(i, count, m).y < 15.0
  {
    FractionInUnit(i, count);
  }

  /** Odd indices form the second strand: their (x, z) is the negation of the unshifted point. */
  lemma HelixStrands(i: nat, count: nat, m: MathOps)
    requires Sound(m) && i < count
    ensures var t := HelixAngle(i, count); var p := HelixPoint(i, count, m);
            && (i % 2 == 0 ==> p.x == m.cos(t) * 8.0 && p.z == m.sin(t) * 8.0)
            && (i % 2 == 1 ==> p.x == -(m.cos(t) * 8.0) && p.z == -(m.sin(t) * 8.0))
  {
    var t := HelixAngle(i, count);
    if i % 2 == 1 {
      ShiftByPi(m, t);
    } else {
      assert t + 0.0 == t;
    }
  }

  /** Both strands have radius 8 about the vertical axis. */
  lemma HelixRadius(i: nat, count: nat, m: MathOps)
    requires Sound(m) && i < count
    ensures PlanarSq(HelixPoint(i, count, m)) == 64.0
  {
    var a := HelixAngle(i, count) + HelixOffset(i);
    UnitCircle(m, a);
    CircleRadius(8.0, m.cos(a), m.sin(a));
    assert m.cos(a) * 8.0 == 8.0 * m.cos(a) && m.sin(a) * 8.0 == 8.0 * m.sin(a);
  }

  /** RAIN: y in [-20, 20), radial draw in [0, 20) and the point on the circle of that radius. */
  lemma RainBounds(d: seq<real>, m: MathOps)
    requires Sound(m) && |d| == 3 && UnitDraws(d)
    ensures -20.0 <= RainPoint(d, m).y < 20.0
    ensures 0.0 <= RainRadius(d) < 20.0
    ensures PlanarSq(RainPoint(d, m)) == RainRadius(d) * RainRadius(d)
  {
    var a := d[1] * PI * 2.0;
    UnitCircle(m, a);
    CircleRadius(RainRadius(d), m.cos(a), m.sin(a));
  }

  /** FIRE: y in [-12.5, 12.5) and the cone radius in [0, 6). */
  lemma FireBounds(i: nat, count: nat, d: seq<real>, m: MathOps)
    requires i < count && |d| == 5 && UnitDraws(d)
    ensures var p := FirePoint(i, count, d, m); var r := FireRadius(i, count, d);
            -12.5 <= p.y < 12.5 && 0.0 <= r < 6.0
  {
    FractionInUnit(i, count);
    var w := 1.0 - i as real / count as real;
    assert 0.0 < w <= 1.0;
    assert 0.0 <= d[0] * 6.0 < 6.0;
    assert d[0] * 6.0 * w <= d[0] * 6.0;
  }

  /** TREE: y in [-15, 15), the cone radius in (0, 12] and the point on the circle of that radius. */
  lemma TreeBounds(d: seq<real>, m: MathOps)
    requires Sound(m) && |d| == 2 && UnitDraws(d)
    ensures -15.0 <= TreePoint(d, m).y < 15.0
    ensures 0.0 < TreeRadius(d) <= 12.0
    ensures PlanarSq(TreePoint(d, m)) == TreeRadius(d) * TreeRadius(d)
  {
    var a := d[1] * PI * 2.0;
    UnitCircle(m, a);
    CircleRadius(TreeRadius(d), m.cos(a), m.sin(a));
  }

  /** FLOWER and BUTTERFLY are flat: depth in [-1, 1); the rose radius is in [0, 14). */
  lemma FlatShapes(d3: seq<real>, d2: seq<real>, m: MathOps)
    requires Sound(m) && |d3| == 3 && UnitDraws(d3) && |d2| == 2 && UnitDraws(d2)
    ensures -1.0 <= FlowerPoint(d3, m).z < 1.0
    ensures 0.0 <= FlowerRadius(d3, m) < 14.0
    ensures -1.0 <= ButterflyPoint(d2, m).z < 1.0
  {
    var flowerTheta := d3[0] * PI * 2.0;
    SinCosBounds(m, 4.0 * flowerTheta);
  }

  // ---------------------------------------------------------------------------
  // The per-point bounds, lifted to whole buffers
  // ---------------------------------------------------------------------------

  /** Every point of a SPHERE buffer lies on the sphere of radius 12. */
  lemma SphereBuffer(count: nat, text: string, render: Rasterizer, rnd: Oracle, m: MathOps)
    requires Sound(m) && UnitOracle(rnd)
    ensures var ps := GeneratedPoints(Sphere, count, text, render, rnd, m);
            forall i :: 0 <= i < |ps| ==> SqNorm(ps[i]) == 144.0
  {
    var ps := GeneratedPoints(Sphere, count, text, render, rnd, m);
    forall i | 0 <= i < |ps|
      ensures SqNorm(ps[i]) == 144.0
    {
      GeneratedPoint(Sphere, count, text, render, rnd, m, i);
      SphereOnSurface(i, count, m);
    }
  }

  /** Every point of a STAR buffer lies strictly inside the ball of radius 15. */
  lemma StarBuffer(count: nat, text: string, render: Rasterizer, rnd: Oracle, m: MathOps)
    requires Sound(m) && UnitOracle(rnd)
    ensures var ps := GeneratedPoints(Star, count, text, render, rnd, m);
            forall i :: 0 <= i < |ps| ==> SqNorm(ps[i]) < 225.0
  {
    var ps := GeneratedPoints(Star, count, text, render, rnd, m);
    forall i | 0 <= i < |ps|
      ensures SqNorm(ps[i]) < 225.0
    {
      GeneratedPoint(Star, count, text, render, rnd, m, i);
      StarInBall(Draws(rnd, 4 * i, 4), m);
    }
  }

  /** Every point of a CUBE buffer lies in the box [-10, 10)³. */
  lemma CubeBuffer(count: nat, text: string, render: Rasterizer, rnd: Oracle, m: MathOps)
    requires UnitOracle(rnd)
    ensures var ps := GeneratedPoints(Cube, count, text, render, rnd, m);
            forall i :: 0 <= i < |ps| ==>
              -10.0 <= ps[i].x < 10.0 && -10.0 <= ps[i].y < 10.0 && -10.0 <= ps[i].z < 10.0
  {
    var ps := GeneratedPoints(Cube, count, text, render, rnd, m);
    forall i | 0 <= i < |ps|
      ensures -10.0 <= ps[i].x < 10.0 && -10.0 <= ps[i].y < 10.0 && -10.0 <= ps[i].z < 10.0
    {
      GeneratedPoint(Cube, count, text, render, rnd, m, i);
      CubeBounds(Draws(rnd, 3 * i, 3));
    }
  }

  /** Every point of a HELIX buffer is at distance 8 from the axis, at a height in [-15, 15). */
  lemma HelixBuffer(count: nat, text: string, render: Rasterizer, rnd: Oracle, m: MathOps)
    requires Sound(m) && UnitOracle(rnd)
    ensures var ps := GeneratedPoints(Helix, count, text, render, rnd, m);
            forall i :: 0 <= i < |ps| ==> PlanarSq(ps[i]) == 64.0 && -15.0 <= ps[i].y < 15.0
  {
    var ps := GeneratedPoints(Helix, count, text, render, rnd, m);
    forall i | 0 <= i < |ps|
      ensures PlanarSq(ps[i]) == 64.0 && -15.0 <= ps[i].y < 15.0
    {
      GeneratedPoint(Helix, count, text, render, rnd, m, i);
      HelixRadius(i, count, m);
      HelixHeight(i, count, m);
    }
  }

  /** Every point of a RANDOM buffer, or of an unlisted kind's, lies in the box [-20, 20)³. */
  lemma BoxBuffer(kind: ShapeType, count: nat, text: string, render: Rasterizer, rnd: Oracle, m: MathOps)
    requires (kind.Random? || kind.Unlisted?) && UnitOracle(rnd)
    ensures var ps := GeneratedPoints(kind, count, text, render, rnd, m);
            forall i :: 0 <= i < |ps| ==>
              -20.0 <= ps[i].x < 20.0 && -20.0 <= ps[i].y < 20.0 && -20.0 <= ps[i].z < 20.0
  {
    var ps := GeneratedPoints(kind, count, text, render, rnd, m);
    forall i | 0 <= i < |ps|
      ensures -20.0 <= ps[i].x < 20.0 && -20.0 <= ps[i].y < 20.0 && -20.0 <= ps[i].z < 20.0
    {
      GeneratedPoint(kind, count, text, render, rnd, m, i);
      BoxBounds(kind, i, count, Draws(rnd, 3 * i, 3), m);
    }
  }
}
