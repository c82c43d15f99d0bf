/**
 * The particle cloud of the scene component: the memoised target and idle sets, the seeded starting
 * buffer, and the per-frame step that computes a target for every particle and moves the live
 * position buffer a fixed fraction of the way towards it.
 */
module ParticleMotion {
  import opened Common
  import opened Types
  import opened Geometry

  // ---------------------------------------------------------------------------
  // The transform applied to the shape
  // ---------------------------------------------------------------------------

  /**
   * A 3x3 matrix, row by row. The frame's 4x4 matrices carry no translation and have the last row
   * (0, 0, 0, 1), so on a point they act as their upper-left 3x3 block (the perspective divide is by 1).
   */
  datatype Mat3 = Mat3(
    m00: real, m01: real, m02: real,
    m10: real, m11: real, m12: real,
    m20: real, m21: real, m22: real)

  function Identity(): Mat3
  {
    Mat3(1.0, 0.0, 0.0,
         0.0, 1.0, 0.0,
         0.0, 0.0, 1.0)
  }

  /** `a.multiply(b)`: the product `a * b`. */
  function MatMul(a: Mat3, b: Mat3): Mat3
  {
    Mat3(a.m00 * b.m00 + a.m01 * b.m10 + a.m02 * b.m20,
         a.m00 * b.m01 + a.m01 * b.m11 + a.m02 * b.m21,
         a.m00 * b.m02 + a.m01 * b.m12 + a.m02 * b.m22,
         a.m10 * b.m00 + a.m11 * b.m10 + a.m12 * b.m20,
         a.m10 * b.m01 + a.m11 * b.m11 + a.m12 * b.m21,
         a.m10 * b.m02 + a.m11 * b.m12 + a.m12 * b.m22,
         a.m20 * b.m00 + a.m21 * b.m10 + a.m22 * b.m20,
         a.m20 * b.m01 + a.m21 * b.m11 + a.m22 * b.m21,
         a.m20 * b.m02 + a.m21 * b.m12 + a.m22 * b.m22)
  }

  /** `v.applyMatrix4(a)` for an affine `a` without translation. */
  function Apply(a: Mat3, v: Vec3): Vec3
  {
    Vec3(a.m00 * v.x + a.m01 * v.y + a.m02 * v.z,
         a.m10 * v.x + a.m11 * v.y + a.m12 * v.z,
         a.m20 * v.x + a.m21 * v.y + a.m22 * v.z)
  }

  /** `makeScale(s, s, s)`. */
  function ScaleMatrix(s: real): Mat3
  {
    Mat3(s, 0.0, 0.0,
         0.0, s, 0.0,
         0.0, 0.0, s)
  }

  /** `makeRotationFromEuler` for the Euler order 'XYZ' (angles in radians). */
  function RotationXYZ(ax: real, ay: real, az: real, m: MathOps): Mat3
  {
    EulerXYZ(m.cos(ax), m.sin(ax), m.cos(ay), m.sin(ay), m.cos(az), m.sin(az))
  }

  /** The 'XYZ' rotation from the cosines and sines of its three angles. */
  function EulerXYZ(a: real, b: real, c: real, d: real, e: real, f: real): Mat3
  {
    var ae, af, be, bf := a * e, a * f, b * e, b * f;
    Mat3(c * e, -c * f, d,
         af + be * d, ae - bf * d, -b * c,
         bf - ae * d, be + af * d, a * c)
  }

  /** `MathUtils.degToRad`. */
  function DegToRad(deg: real): real
  {
    deg * (PI / 180.0)
  }

  /** At zero angles the rotation is the identity. */
  lemma RotationAtZero(m: MathOps)
    requires Sound(m)
    ensures RotationXYZ(0.0, 0.0, 0.0, m) == Identity()
  {
    assert EulerXYZ(1.0, 0.0, 1.0, 0.0, 1.0, 0.0) == Identity();
  }

  lemma IdentityLeft(a: Mat3)
    ensures MatMul(Identity(), a) == a
  {
  }

  // ---------------------------------------------------------------------------
  // Per-frame parameters
  // ---------------------------------------------------------------------------

  /** What one frame derives from the configuration and the hand before its loop. */
  datatype FrameParams = FrameParams(
    present: bool,
    grip: real,
    lerpFactor: real,
    transform: Mat3,
    offsetX: real,
    offsetY: real)

  /** The fraction of the remaining distance a particle covers per frame. */
  function LerpFactor(speed: real): real
  {
    0.08 * speed
  }

  /** `performance.now()` in milliseconds to the seconds the animation uses. */
  function FrameTime(now: real): real
  {
    now * 0.001
  }

  /** The effective grip, the lerp factor, the `I * R * S` transform and the hand offset of one frame. */
  function Params(config: ParticleConfig, hand: HandData, m: MathOps): FrameParams
  {
    var roll := if hand.isPresent then hand.rotation.z else 0.0;
    var rotation := RotationXYZ(
      DegToRad(config.rotationOffsets.x),
      DegToRad(config.rotationOffsets.y),
      DegToRad(config.rotationOffsets.z) + roll,
      m);
    var scale := if hand.isPresent then hand.scale else 1.0;
    FrameParams(
      hand.isPresent,
      if hand.isPresent then hand.gripStrength else 0.0,
      LerpFactor(config.speed),
      MatMul(MatMul(Identity(), rotation), ScaleMatrix(scale)),
      if hand.isPresent then hand.position.x * 20.0 else 0.0,
      if hand.isPresent then hand.position.y * 20.0 else 0.0)
  }

  /** The speed slider's range [0.1, 3] keeps the lerp factor in [0.008, 0.24], hence below 1. */
  lemma LerpFactorRange(speed: real)
    requires 0.1 <= speed <= 3.0
    ensures 0.008 <= LerpFactor(speed) <= 0.24
  {
  }

  /**
   * Without a hand the grip is 0, the offsets are 0, the scale is 1 and the hand's roll is not added:
   * the parameters depend on the configuration alone, whatever the rest of the hand record holds.
   */
  lemma AbsentParams(config: ParticleConfig, hand: HandData, other: HandData, m: MathOps)
    requires !hand.isPresent && !other.isPresent
    ensures var p := Params(config, hand, m);
            && p.grip == 0.0 && p.offsetX == 0.0 && p.offsetY == 0.0 && !p.present
            && p.transform == MatMul(MatMul(Identity(), RotationXYZ(
                 DegToRad(config.rotationOffsets.x),
                 DegToRad(config.rotationOffsets.y),
                 DegToRad(config.rotationOffsets.z), m)), ScaleMatrix(1.0))
    ensures Params(config, hand, m) == Params(config, other, m)
  {
    assert DegToRad(config.rotationOffsets.z) + 0.0 == DegToRad(config.rotationOffsets.z);
  }

  /** With a hand, its grip is used as is, its position scaled by 20 is the offset, and its roll and scale enter the transform. */
  lemma PresentParams(config: ParticleConfig, hand: HandData, m: MathOps)
    requires hand.isPresent
    ensures var p := Params(config, hand, m);
            && p.present && p.grip == hand.gripStrength
            && p.offsetX == hand.position.x * 20.0 && p.offsetY == hand.position.y * 20.0
            && p.transform == MatMul(MatMul(Identity(), RotationXYZ(
                 DegToRad(config.rotationOffsets.x),
                 DegToRad(config.rotationOffsets.y),
                 DegToRad(config.rotationOffsets.z) + hand.rotation.z, m)), ScaleMatrix(hand.scale))
  {
  }

  // ---------------------------------------------------------------------------
  // Per-particle targets
  // ---------------------------------------------------------------------------

  /** `MathUtils.lerp(a, b, t)`. */
  function Lerp(a: real, b: real, t: real): real
  {
    (1.0 - t) * a + t * b
  }

  function Blend(from: Vec3, to: Vec3, t: real): Vec3
  {
    Vec3(Lerp(from.x, to.x, t), Lerp(from.y, to.y, t), Lerp(from.z, to.z, t))
  }

  /** Lerp hits its end points at 0 and 1. */
  lemma LerpEnds(a: real, b: real)
    ensures Lerp(a, b, 0.0) == a && Lerp(a, b, 1.0) == b
  {
  }

  /** For a parameter in [0, 1] lerp stays between its end points. */
  lemma LerpBetween(a: real, b: real, t: real)
    requires 0.0 <= t <= 1.0
    ensures Min(a, b) <= Lerp(a, b, t) <= Max(a, b)
  {
    var s := t * (b - a);
    assert Lerp(a, b, t) == a + s;
    ScaleUnit(t, b - a);
    PartWay(a, b, s);
  }

  lemma NonNegProduct(a: real, b: real)
    requires a >= 0.0 && b >= 0.0
    ensures a * b >= 0.0
  {
  }

  /** A fraction `t` in [0, 1] of `x` lies between 0 and `x`. */
  lemma ScaleUnit(t: real, x: real)
    requires 0.0 <= t <= 1.0
    ensures x >= 0.0 ==> 0.0 <= t * x <= x
    ensures x <= 0.0 ==> x <= t * x <= 0.0
  {
    if x >= 0.0 {
      NonNegProduct(t, x);
      NonNegProduct(1.0 - t, x);
    } else {
      NonNegProduct(t, -x);
      NonNegProduct(1.0 - t, -x);
    }
  }

  lemma PartWay(a: real, b: real, s: real)
    requires b - a >= 0.0 ==> 0.0 <= s <= b - a
    requires b - a <= 0.0 ==> b - a <= s <= 0.0
    ensures Min(a, b) <= a + s <= Max(a, b)
  {
  }

  /** The idle target: the idle point floating on a slow sine wave of amplitude 2. */
  function IdleTarget(idle: Vec3, i: nat, time: real, m: MathOps): Vec3
  {
    Vec3(idle.x + m.sin(time + i as real * 0.1) * 2.0,
         idle.y + m.cos(time + i as real * 0.1) * 2.0,
         idle.z + m.sin(time * 0.5 + i as real * 0.05) * 2.0)
  }

  /** The shaped target: the shape point transformed, then moved to the hand in the screen plane. */
  function ShapedTarget(target: Vec3, p: FrameParams): Vec3
  {
    var v := Apply(p.transform, target);
    Vec3(v.x + p.offsetX, v.y + p.offsetY, v.z)
  }

  const DisperseScale: real := 1.5

  /** The dispersed target: the idle point spread by 1.5 and centred on the hand in the screen plane. */
  function DispersedTarget(idle: Vec3, p: FrameParams): Vec3
  {
    Vec3(idle.x * DisperseScale + p.offsetX, idle.y * DisperseScale + p.offsetY, idle.z * DisperseScale)
  }

  /** The breathing offset added to all three axes of particle `i`. */
  function Life(i: nat, time: real, m: MathOps): real
  {
    m.sin(time * 2.0 + i as real) * 0.1
  }

  /** The interactive target: dispersed at grip 0, shaped at grip 1, plus the breathing offset. */
  function InteractiveTarget(target: Vec3, idle: Vec3, i: nat, p: FrameParams, time: real, m: MathOps): Vec3
  {
    var b := Blend(DispersedTarget(idle, p), ShapedTarget(target, p), p.grip);
    var life := Life(i, time, m);
    Vec3(b.x + life, b.y + life, b.z + life)
  }

  function FrameTarget(target: Vec3, idle: Vec3, i: nat, p: FrameParams, time: real, m: MathOps): Vec3
  {
    if !p.present then IdleTarget(idle, i, time, m) else InteractiveTarget(target, idle, i, p, time, m)
  }

  /** One integration step of one coordinate. */
  function Integrate(cur: real, t: real, lf: real): real
  {
    cur + (t - cur) * lf
  }

  function IntegrateVec(cur: Vec3, t: Vec3, lf: real): Vec3
  {
    Vec3(Integrate(cur.x, t.x, lf), Integrate(cur.y, t.y, lf), Integrate(cur.z, t.z, lf))
  }

  /** The targets of one frame: target `i` is computed from point `i` of the shape set and of the idle set. */
  function FrameTargets(targets: seq<real>, idles: seq<real>, count: nat, p: FrameParams,
                        time: real, m: MathOps): seq<Vec3>
    requires |targets| == 3 * count && |idles| == 3 * count
  {
    seq(count, i requires 0 <= i < count => FrameTarget(Point3(targets, i), Point3(idles, i), i, p, time, m))
  }

  lemma FramePointAt(buf: seq<real>, targets: seq<real>, idles: seq<real>, count: nat, p: FrameParams,
                     time: real, m: MathOps, i: nat)
    requires |buf| == 3 * count && |targets| == 3 * count && |idles| == 3 * count && i < count
    ensures FramePoints(buf, targets, idles, count, p, time, m)[i]
         == IntegrateVec(Point3(buf, i), FrameTarget(Point3(targets, i), Point3(idles, i), i, p, time, m), p.lerpFactor)
  {
  }

  /** Every point of `buf` moved the fraction `lf` of the way towards its target in `ts`. */
  function StepAll(buf: seq<real>, ts: seq<Vec3>, lf: real): seq<Vec3>
    requires |buf| == 3 * |ts|
  {
    seq(|ts|, i requires 0 <= i < |ts| => IntegrateVec(Point3(buf, i), ts[i], lf))
  }

  /** The points of the live buffer after one frame. */
  function FramePoints(buf: seq<real>, targets: seq<real>, idles: seq<real>, count: nat, p: FrameParams,
                       time: real, m: MathOps): seq<Vec3>
    requires |buf| == 3 * count && |targets| == 3 * count && |idles| == 3 * count
  {
    StepAll(buf, FrameTargets(targets, idles, count, p, time, m), p.lerpFactor)
  }

  /** Before the breathing offset, grip 0 gives the dispersed target and grip 1 the shaped target. */
  lemma GripEndpoints(target: Vec3, idle: Vec3, p: FrameParams)
    ensures Blend(DispersedTarget(idle, p), ShapedTarget(target, p), 0.0) == DispersedTarget(idle, p)
    ensures Blend(DispersedTarget(idle, p), ShapedTarget(target, p), 1.0) == ShapedTarget(target, p)
  {
    var a, b := DispersedTarget(idle, p), ShapedTarget(target, p);
    LerpEnds(a.x, b.x);
    LerpEnds(a.y, b.y);
    LerpEnds(a.z, b.z);
  }

  /** For a grip in [0, 1] each coordinate of the blend lies between the dispersed and the shaped one. */
  lemma BlendBetween(target: Vec3, idle: Vec3, p: FrameParams)
    requires 0.0 <= p.grip <= 1.0
    ensures var a, b := DispersedTarget(idle, p), ShapedTarget(target, p);
            var c := Blend(a, b, p.grip);
            && Min(a.x, b.x) <= c.x <= Max(a.x, b.x)
            && Min(a.y, b.y) <= c.y <= Max(a.y, b.y)
            && Min(a.z, b.z) <= c.z <= Max(a.z, b.z)
  {
    var a, b := DispersedTarget(idle, p), ShapedTarget(target, p);
    LerpBetween(a.x, b.x, p.grip);
    LerpBetween(a.y, b.y, p.grip);
    LerpBetween(a.z, b.z, p.grip);
  }

  /** The breathing offset is one value of magnitude at most 0.1, added to every axis alike. */
  lemma JitterUniform(target: Vec3, idle: Vec3, i: nat, p: FrameParams, time: real, m: MathOps)
    requires Sound(m)
    ensures var b := Blend(DispersedTarget(idle, p), ShapedTarget(target, p), p.grip);
            var t := InteractiveTarget(target, idle, i, p, time, m);
            t.x - b.x == t.y - b.y == t.z - b.z == Life(i, time, m)
    ensures -0.1 <= Life(i, time, m) <= 0.1
  {
    SinCosBounds(m, time * 2.0 + i as real);
  }

  /** Each idle target is within 2 of the idle point on every axis. */
  lemma IdleWithin2(idle: Vec3, i: nat, time: real, m: MathOps)
    requires Sound(m)
    ensures var t := IdleTarget(idle, i, time, m);
            Abs(t.x - idle.x) <= 2.0 && Abs(t.y - idle.y) <= 2.0 && Abs(t.z - idle.z) <= 2.0
  {
    SinCosBounds(m, time + i as real * 0.1);
    SinCosBounds(m, time * 0.5 + i as real * 0.05);
  }

  /** With no rotation offsets and a hand with no roll and scale 1, the transform is built from zero angles. */
  lemma RestTransform(config: ParticleConfig, hand: HandData, m: MathOps)
    requires config.rotationOffsets == Vec3(0.0, 0.0, 0.0)
    requires hand.isPresent && hand.rotation.z == 0.0 && hand.scale == 1.0
    ensures Params(config, hand, m).transform == MatMul(MatMul(Identity(), RotationXYZ(0.0, 0.0, 0.0, m)), ScaleMatrix(1.0))
  {
    assert DegToRad(config.rotationOffsets.z) + hand.rotation.z == 0.0;
  }

  /** `I * R(0, 0, 0) * S(1)` is the identity. */
  lemma RestMatrix(m: MathOps)
    requires Sound(m)
    ensures MatMul(MatMul(Identity(), RotationXYZ(0.0, 0.0, 0.0, m)), ScaleMatrix(1.0)) == Identity()
  {
    RotationAtZero(m);
    IdentityLeft(Identity());
    assert MatMul(Identity(), ScaleMatrix(1.0)) == Identity();
  }

  /** ... and with the hand at the centre as well, the frame neither transforms nor offsets the shape. */
  lemma AtRestParams(config: ParticleConfig, hand: HandData, m: MathOps)
    requires Sound(m)
    requires config.rotationOffsets == Vec3(0.0, 0.0, 0.0)
    requires hand.isPresent && hand.rotation.z == 0.0 && hand.scale == 1.0
    requires hand.position.x == 0.0 && hand.position.y == 0.0
    ensures var p := Params(config, hand, m);
            p.transform == Identity() && p.offsetX == 0.0 && p.offsetY == 0.0
  {
    RestTransform(config, hand, m);
    RestMatrix(m);
    CentredOffsets(config, hand, m);
  }

  lemma CentredOffsets(config: ParticleConfig, hand: HandData, m: MathOps)
    requires hand.position.x == 0.0 && hand.position.y == 0.0
    ensures Params(config, hand, m).offsetX == 0.0 && Params(config, hand, m).offsetY == 0.0
  {
  }

  /** Then the shaped target is the shape point itself. */
  lemma ShapedAtRest(config: ParticleConfig, hand: HandData, target: Vec3, m: MathOps)
    requires Sound(m)
    requires config.rotationOffsets == Vec3(0.0, 0.0, 0.0)
    requires hand.isPresent && hand.rotation.z == 0.0 && hand.scale == 1.0
    requires hand.position.x == 0.0 && hand.position.y == 0.0
    ensures ShapedTarget(target, Params(config, hand, m)) == target
  {
    AtRestParams(config, hand, m);
    UntransformedShape(target, Params(config, hand, m));
  }

  lemma UntransformedShape(target: Vec3, p: FrameParams)
    requires p.transform == Identity() && p.offsetX == 0.0 && p.offsetY == 0.0
    ensures ShapedTarget(target, p) == target
  {
  }

  // ---------------------------------------------------------------------------
  // The integration step
  // ---------------------------------------------------------------------------

  /**
   * No overshoot: for a factor in (0, 1] the new value lies between the old value and the target,
   * and the remaining distance shrinks by exactly the factor `1 - lf`.
   */
  lemma StepTowardTarget(cur: real, t: real, lf: real)
    requires 0.0 < lf <= 1.0
    ensures Min(cur, t) <= Integrate(cur, t, lf) <= Max(cur, t)
    ensures Abs(t - Integrate(cur, t, lf)) == (1.0 - lf) * Abs(t - cur)
  {
    StepBetween(cur, t, lf);
    StepDistance(cur, t, lf);
  }

  lemma StepDistance(cur: real, t: real, lf: real)
    requires 0.0 < lf <= 1.0
    ensures Abs(t - Integrate(cur, t, lf)) == (1.0 - lf) * Abs(t - cur)
  {
    RemainingDistance(t - cur, lf, t - Integrate(cur, t, lf));
  }

  lemma StepBetween(cur: real, t: real, lf: real)
    requires 0.0 < lf <= 1.0
    ensures Min(cur, t) <= Integrate(cur, t, lf) <= Max(cur, t)
  {
    var s := lf * (t - cur);
    assert Integrate(cur, t, lf) == cur + s;
    ScaleUnit(lf, t - cur);
    PartWay(cur, t, s);
  }

  /** What is left of a distance `e` after covering the fraction `lf` of it. */
  lemma RemainingDistance(e: real, lf: real, rest: real)
    requires 0.0 <= lf <= 1.0 && rest == e - e * lf
    ensures Abs(rest) == (1.0 - lf) * Abs(e)
  {
    assert rest == (1.0 - lf) * e;
    if e < 0.0 {
      assert (1.0 - lf) * Abs(e) == (1.0 - lf) * (-e);
      NonNegProduct(1.0 - lf, -e);
    } else {
      NonNegProduct(1.0 - lf, e);
    }
  }

  /** A factor above 1 (a speed above 12.5) carries the particle past its target. */
  lemma StepOvershoots(cur: real, t: real, lf: real)
    requires lf > 1.0 && cur != t
    ensures (t - Integrate(cur, t, lf)) * (t - cur) < 0.0
  {
    var e := t - cur;
    assert t - Integrate(cur, t, lf) == (1.0 - lf) * e;
    NegSquare(lf - 1.0, e, t - Integrate(cur, t, lf));
  }

  lemma NegSquare(k: real, e: real, x: real)
    requires k > 0.0 && e != 0.0 && x == -k * e
    ensures x * e < 0.0
  {
    assert e * e > 0.0;
    assert x * e == -(k * (e * e));
  }

  /** `n` frames under a constant target, the first one applied to `cur`. */
  function Iterate(cur: real, t: real, lf: real, n: nat): real
    decreases n
  {
    if n == 0 then cur else Iterate(Integrate(cur, t, lf), t, lf, n - 1)
  }

  function Pow(b: real, n: nat): real
  {
    if n == 0 then 1.0 else b * Pow(b, n - 1)
  }

  /** The last of `n + 1` frames is applied to the result of the first `n`. */
  lemma {:induction false} IterateLast(cur: real, t: real, lf: real, n: nat)
    ensures Iterate(cur, t, lf, n + 1) == Integrate(Iterate(cur, t, lf, n), t, lf)
    decreases n
  {
    if n > 0 {
      IterateLast(Integrate(cur, t, lf), t, lf, n - 1);
    }
  }

  /** After `n` frames the distance to a constant target is `(1 - lf)^n` times the initial one. */
  lemma {:induction false} IterateError(cur: real, t: real, lf: real, n: nat)
    ensures t - Iterate(cur, t, lf, n) == Pow(1.0 - lf, n) * (t - cur)
    decreases n
  {
    if n > 0 {
      var next := Integrate(cur, t, lf);
      IterateError(next, t, lf, n - 1);
      assert t - next == (1.0 - lf) * (t - cur);
      MulSubst(Pow(1.0 - lf, n - 1), t - next, 1.0 - lf, t - cur);
    }
  }

  lemma MulSubst(k: real, x: real, y: real, c: real)
    requires x == y * c
    ensures k * x == (k * y) * c
  {
  }

  /** The distance to a constant target never grows from one frame to the next. */
  lemma ErrorNonIncreasing(cur: real, t: real, lf: real, n: nat)
    requires 0.0 < lf <= 1.0
    ensures Abs(t - Iterate(cur, t, lf, n + 1)) <= Abs(t - Iterate(cur, t, lf, n))
  {
    IterateLast(cur, t, lf, n);
    StepTowardTarget(Iterate(cur, t, lf, n), t, lf);
  }

  /** Bernoulli's inequality in the form the convergence proof uses: `(1 - lf)^n (1 + n lf) <= 1`. */
  lemma {:induction false} Bernoulli(lf: real, n: nat)
    requires 0.0 <= lf <= 1.0
    ensures 0.0 <= Pow(1.0 - lf, n)
    ensures Pow(1.0 - lf, n) * (1.0 + n as real * lf) <= 1.0
    decreases n
  {
    if n > 0 {
      Bernoulli(lf, n - 1);
      BernoulliStep(Pow(1.0 - lf, n), Pow(1.0 - lf, n - 1), lf, (n - 1) as real, n as real);
    }
  }

  /** One more factor `1 - lf` pays for one more `lf` in the bound. */
  lemma BernoulliStep(q: real, p: real, lf: real, k: real, k': real)
    requires q == (1.0 - lf) * p && k' == k + 1.0
    requires 0.0 <= lf <= 1.0 && k >= 0.0 && 0.0 <= p && p * (1.0 + k * lf) <= 1.0
    ensures 0.0 <= q
    ensures q * (1.0 + k' * lf) <= 1.0
  {
    NonNegProduct(1.0 - lf, p);
    assert q * (1.0 + k' * lf) == p * (1.0 + k * lf) - p * (k' * (lf * lf));
    NonNegProduct(k', lf * lf);
    NonNegProduct(p, k' * (lf * lf));
  }

  /** After `n` frames the distance is at most `1 / (1 + n lf)` of the initial one. */
  lemma {:induction false} ErrorBound(cur: real, t: real, lf: real, n: nat)
    requires 0.0 < lf <= 1.0
    ensures Abs(t - Iterate(cur, t, lf, n)) * (1.0 + n as real * lf) <= Abs(t - cur)
  {
    IterateError(cur, t, lf, n);
    Bernoulli(lf, n);
    ShrunkDistance(t - Iterate(cur, t, lf, n), Pow(1.0 - lf, n), t - cur, 1.0 + n as real * lf);
  }

  lemma ShrunkDistance(x: real, q: real, e: real, c: real)
    requires x == q * e && 0.0 <= q && q * c <= 1.0 && c >= 0.0
    ensures Abs(x) * c <= Abs(e)
  {
    assert Abs(x) == q * Abs(e);
    assert (q * Abs(e)) * c == (q * c) * Abs(e);
    NonNegProduct(1.0 - q * c, Abs(e));
  }

  /** Under a constant target the particle comes within any `eps` of it and stays there. */
  lemma Converges(cur: real, t: real, lf: real, eps: real) returns (n0: nat)
    requires 0.0 < lf <= 1.0 && eps > 0.0
    ensures forall n: nat :: n >= n0 ==> Abs(t - Iterate(cur, t, lf, n)) < eps
  {
    n0 := Archimedean(Abs(t - cur), eps * lf);
    forall n: nat | n >= n0
      ensures Abs(t - Iterate(cur, t, lf, n)) < eps
    {
      CloseAfter(cur, t, lf, eps, n, n0);
    }
  }

  /** Some count `k` makes `k * e` exceed `d`. */
  lemma Archimedean(d: real, e: real) returns (k: nat)
    requires d >= 0.0 && e > 0.0
    ensures k as real * e > d
  {
    var r := d / e;
    assert r * e == d;
    assert r >= 0.0;
    k := r.Floor as nat + 1;
    assert k as real > r;
    assert k as real * e > r * e;
  }

  lemma {:induction false} CloseAfter(cur: real, t: real, lf: real, eps: real, n: nat, n0: nat)
    requires 0.0 < lf <= 1.0 && eps > 0.0
    requires n >= n0 && n0 as real * (eps * lf) > Abs(t - cur)
    ensures Abs(t - Iterate(cur, t, lf, n)) < eps
  {
    ErrorBound(cur, t, lf, n);
    SmallError(Abs(t - Iterate(cur, t, lf, n)), Abs(t - cur), lf, eps, n as real, n0 as real);
  }

  lemma SmallError(e: real, d: real, lf: real, eps: real, n: real, n0: real)
    requires 0.0 < lf && eps > 0.0 && e >= 0.0 && n0 >= 0.0
    requires e * (1.0 + n * lf) <= d
    requires n >= n0 && n0 * (eps * lf) > d
    ensures e < eps
  {
    assert n * (eps * lf) >= n0 * (eps * lf);
    assert (1.0 + n * lf) * eps > d;
    NonNegProduct(n, lf);
    CancelPositive(e, eps, 1.0 + n * lf);
  }

  lemma CancelPositive(a: real, b: real, c: real)
    requires c > 0.0 && a * c < b * c
    ensures a < b
  {
    assert (b - a) * c > 0.0;
  }

  /**
   * With `lerpFactor` in (0, 1] no particle passes its target: every coordinate ends between its
   * old value and its target, and its distance to the target shrinks by the factor `1 - lf`.
   */
  lemma StepsToward(buf: seq<real>, ts: seq<Vec3>, lf: real, i: nat)
    requires |buf| == 3 * |ts| && i < |ts| && 0.0 < lf <= 1.0
    ensures var old_, new_, t := Point3(buf, i), StepAll(buf, ts, lf)[i], ts[i];
            && Min(old_.x, t.x) <= new_.x <= Max(old_.x, t.x)
            && Min(old_.y, t.y) <= new_.y <= Max(old_.y, t.y)
            && Min(old_.z, t.z) <= new_.z <= Max(old_.z, t.z)
            && Abs(t.x - new_.x) == (1.0 - lf) * Abs(t.x - old_.x)
            && Abs(t.y - new_.y) == (1.0 - lf) * Abs(t.y - old_.y)
            && Abs(t.z - new_.z) == (1.0 - lf) * Abs(t.z - old_.z)
  {
    VecStep(StepAll(buf, ts, lf)[i], Point3(buf, i), ts[i], lf);
  }

  lemma VecStep(n: Vec3, cur: Vec3, t: Vec3, lf: real)
    requires 0.0 < lf <= 1.0 && n == IntegrateVec(cur, t, lf)
    ensures && Min(cur.x, t.x) <= n.x <= Max(cur.x, t.x)
            && Min(cur.y, t.y) <= n.y <= Max(cur.y, t.y)
            && Min(cur.z, t.z) <= n.z <= Max(cur.z, t.z)
            && Abs(t.x - n.x) == (1.0 - lf) * Abs(t.x - cur.x)
            && Abs(t.y - n.y) == (1.0 - lf) * Abs(t.y - cur.y)
            && Abs(t.z - n.z) == (1.0 - lf) * Abs(t.z - cur.z)
  {
    StepTowardTarget(cur.x, t.x, lf);
    StepTowardTarget(cur.y, t.y, lf);
    StepTowardTarget(cur.z, t.z, lf);
  }

  /** Without a hand the shape set plays no part in the frame. */
  lemma AbsentIgnoresShape(buf: seq<real>, targets: seq<real>, other: seq<real>, idles: seq<real>, count: nat,
                           p: FrameParams, time: real, m: MathOps)
    requires |buf| == 3 * count && |targets| == 3 * count && |other| == 3 * count && |idles| == 3 * count
    requires !p.present
    ensures FramePoints(buf, targets, idles, count, p, time, m) == FramePoints(buf, other, idles, count, p, time, m)
  {
  }

  // ---------------------------------------------------------------------------
  // The seeded starting buffer
  // ---------------------------------------------------------------------------

  /** A starting point: three draws mapped onto [-25, 25). */
  function SeedPoint(d: seq<real>): Vec3
    requires |d| == 3
  {
    Vec3((d[0] - 0.5) * 50.0, (d[1] - 0.5) * 50.0, (d[2] - 0.5) * 50.0)
  }

  function SeedPoints(count: nat, rnd: Oracle): seq<Vec3>
  {
    seq(count, i requires 0 <= i < count => SeedPoint(Draws(rnd, 3 * i, 3)))
  }

  /** `initialPositions`: `count` points, each from the next three draws. */
  method SeedInitial(count: nat, rnd: Oracle) returns (arr: array<real>)
    ensures fresh(arr)
    ensures Layout(arr[..], SeedPoints(count, rnd))
  {
    arr := new real[count * 3](_ => 0.0);
    ghost var pts := SeedPoints(count, rnd);
    for i := 0 to count
      invariant forall j :: 0 <= j < i ==> Point3(arr[..], j) == pts[j]
    {
      var p := Vec3((rnd(3 * i) - 0.5) * 50.0, (rnd(3 * i + 1) - 0.5) * 50.0, (rnd(3 * i + 2) - 0.5) * 50.0);
      assert p == pts[i];
      PutPoint(arr[..], i, p);
      StorePoint(arr, i, p);
    }
  }

  /** Every starting coordinate lies in [-25, 25). */
  lemma SeedBounds(count: nat, rnd: Oracle, buf: seq<real>)
    requires UnitOracle(rnd) && Layout(buf, SeedPoints(count, rnd))
    ensures |buf| == 3 * count
    ensures forall j :: 0 <= j < |buf| ==> -25.0 <= buf[j] < 25.0
  {
    forall j | 0 <= j < |buf|
      ensures -25.0 <= buf[j] < 25.0
    {
      var i, a := j / 3, j % 3;
      assert j == 3 * i + a && 0 <= a < 3;
      var d := Draws(rnd, 3 * i, 3);
      assert Point3(buf, i) == SeedPoint(d);
    }
  }

  // ---------------------------------------------------------------------------
  // The component
  // ---------------------------------------------------------------------------

  /** The configuration fields the target and idle sets are memoised on. */
  function MemoKey(config: ParticleConfig): (ShapeType, nat, string)
  {
    (config.shape, config.count, config.textInput)
  }

  /**
   * The particle component across renders and frames. `positions` and `randomPositions` are the
   * memoised target and idle sets; `current` is the live position buffer, the `initialPositions`
   * array that the frame loop updates in place. The ghost fields record the random draws the
   * memoised sets were generated from.
   */
  class ParticleSystem {
    var config: ParticleConfig
    var positions: seq<real>
    var randomPositions: seq<real>
    var current: array<real>
    ghost var shapeDraws: Oracle
    ghost var idleDraws: Oracle
    const render: Rasterizer
    const m: MathOps

    /** The memoised sets are the generator's output for the current configuration, all three buffers hold `count` points. */
    ghost predicate Valid()
      reads this
    {
      && UnitOracle(shapeDraws) && UnitOracle(idleDraws)
      && Layout(positions, GeneratedPoints(config.shape, config.count, config.textInput, render, shapeDraws, m))
      && Layout(randomPositions, GeneratedPoints(Random, config.count, "AI", render, idleDraws, m))
      && Sized()
    }

    /** The target set, the idle set and the live buffer each hold three values per particle. */
    predicate Sized()
      reads this
    {
      && |positions| == 3 * config.count
      && |randomPositions| == 3 * config.count
      && current.Length == 3 * config.count
    }

    /** The first render: both sets are generated and the live buffer is seeded. */
    constructor(config0: ParticleConfig, render0: Rasterizer, m0: MathOps,
                shapeRnd: Oracle, idleRnd: Oracle, seedRnd: Oracle)
      requires UnitOracle(shapeRnd) && UnitOracle(idleRnd)
      ensures Valid()
      ensures config == config0 && render == render0 && m == m0
      ensures shapeDraws == shapeRnd && idleDraws == idleRnd
      ensures fresh(current) && Layout(current[..], SeedPoints(config0.count, seedRnd))
    {
      var pos := GeneratePositions(config0.shape, config0.count, config0.textInput, render0, shapeRnd, m0);
      var rand := GeneratePositions(Random, config0.count, "AI", render0, idleRnd, m0);
      var init := SeedInitial(config0.count, seedRnd);
      GeneratedLength(config0.shape, config0.count, config0.textInput, render0, shapeRnd, m0);
      GeneratedLength(Random, config0.count, "AI", render0, idleRnd, m0);
      config := config0;
      positions := pos[..];
      randomPositions := rand[..];
      current := init;
      shapeDraws := shapeRnd;
      idleDraws := idleRnd;
      render := render0;
      m := m0;
    }

    /**
     * A later render with configuration `next`: the sets are regenerated only when the shape, the
     * count or the text changed, and the live buffer is reseeded (the points element remounted)
     * only when the count changed; otherwise both are kept as they are.
     */
    method Render(next: ParticleConfig, shapeRnd: Oracle, idleRnd: Oracle, seedRnd: Oracle)
      requires Valid() && UnitOracle(shapeRnd) && UnitOracle(idleRnd)
      modifies this
      ensures Valid() && config == next
      ensures MemoKey(next) == old(MemoKey(config)) ==>
                positions == old(positions) && randomPositions == old(randomPositions)
      ensures MemoKey(next) != old(MemoKey(config)) ==> shapeDraws == shapeRnd && idleDraws == idleRnd
      ensures next.count == old(config.count) ==> current == old(current) && current[..] == old(current[..])
      ensures next.count != old(config.count) ==> fresh(current) && Layout(current[..], SeedPoints(next.count, seedRnd))
    {
      if MemoKey(next) != MemoKey(config) {
        var pos := GeneratePositions(next.shape, next.count, next.textInput, render, shapeRnd, m);
        var rand := GeneratePositions(Random, next.count, "AI", render, idleRnd, m);
        GeneratedLength(next.shape, next.count, next.textInput, render, shapeRnd, m);
        GeneratedLength(Random, next.count, "AI", render, idleRnd, m);
        positions := pos[..];
        randomPositions := rand[..];
        shapeDraws := shapeRnd;
        idleDraws := idleRnd;
      }
      if next.count != config.count {
        current := SeedInitial(next.count, seedRnd);
      }
      config := next;
    }

    /** One animation frame with hand record `hand` at `now` milliseconds: every particle takes one step. */
    method Frame(hand: HandData, now: real)
      requires Valid()
      modifies current
      ensures Valid()
      ensures Layout(current[..], FramePoints(old(current[..]), positions, randomPositions, config.count,
                                              Params(config, hand, m), FrameTime(now), m))
    {
      var p := Params(config, hand, m);
      Advance(p, FrameTime(now));
    }

    /** The frame loop: particle `i` moves from its current point towards its target for the parameters `p`. */
    method Advance(p: FrameParams, time: real)
      requires Sized()
      modifies current
      ensures Layout(current[..], FramePoints(old(current[..]), positions, randomPositions, config.count, p, time, m))
    {
      var count := config.count;
      ghost var start := current[..];
      ghost var pts := FramePoints(start, positions, randomPositions, count, p, time, m);
      for i := 0 to count
        invariant forall j :: 0 <= j < i ==> Point3(current[..], j) == pts[j]
        invariant forall j :: i <= j < count ==> Point3(current[..], j) == Point3(start, j)
      {
        var t := FrameTarget(Point3(positions, i), Point3(randomPositions, i), i, p, time, m);
        var cur := Vec3(current[i * 3], current[i * 3 + 1], current[i * 3 + 2]);
        assert cur == Point3(current[..], i) == Point3(start, i);
        var moved := IntegrateVec(cur, t, p.lerpFactor);
        FramePointAt(start, positions, randomPositions, count, p, time, m, i);
        PutPoint(current[..], i, moved);
        StorePoint(current, i, moved);
      }
    }
  }
}
