/**
 * The arithmetic by which the webcam loop turns the first detected hand into the `HandData`
 * record the scene reads: the openness average, the grip clamp, the position map, the roll,
 * the scale clamp, and the inert record sent when no hand is seen.
 */
module HandTracker {
  import opened Common
  import opened Types

  /**
   * What the detector reports about one hand, reduced to the quantities the signal needs.
   * `tipDist[i]` and `mcpDist[i]` are the distances from the wrist (landmark 0) to the tip and to
   * the knuckle of finger `i` (landmarks 8/5, 12/9, 16/13, 20/17); `handSize` is the distance from
   * the wrist to the middle knuckle and `pinchDistance` the one from the thumb tip to the index tip.
   * Landmark coordinates are normalised to [0, 1] over the (mirrored) video frame.
   */
  datatype Observation = Observation(
    wrist: Vec3,
    middleBase: Vec3,
    tipDist: seq<real>,
    mcpDist: seq<real>,
    handSize: real,
    pinchDistance: real,
    aspectRatio: real)

  /** Four fingers, each with a knuckle apart from the wrist (the ratio divides by that distance). */
  predicate WellFormed(o: Observation)
  {
    |o.tipDist| == 4 && |o.mcpDist| == 4 && forall i :: 0 <= i < 4 ==> o.mcpDist[i] > 0.0
  }

  /** How far finger `i` is stretched: tip distance over knuckle distance. */
  function Ratio(o: Observation, i: nat): real
    requires WellFormed(o) && i < 4
  {
    o.tipDist[i] / o.mcpDist[i]
  }

  /** The ratios of the first `n` fingers added up. */
  function RatioSum(o: Observation, n: nat): real
    requires WellFormed(o) && n <= 4
  {
    if n == 0 then 0.0 else RatioSum(o, n - 1) + Ratio(o, n - 1)
  }

  /** `avgRatio`. */
  function MeanRatio(o: Observation): real
    requires WellFormed(o)
  {
    RatioSum(o, 4) / 4.0
  }

  /** `avgRatio` is the plain mean of the four finger ratios. */
  lemma FourRatios(o: Observation)
    requires WellFormed(o)
    ensures MeanRatio(o) == (Ratio(o, 0) + Ratio(o, 1) + Ratio(o, 2) + Ratio(o, 3)) / 4.0
  {
    assert RatioSum(o, 1) == Ratio(o, 0);
    assert RatioSum(o, 2) == Ratio(o, 0) + Ratio(o, 1);
    assert RatioSum(o, 3) == Ratio(o, 0) + Ratio(o, 1) + Ratio(o, 2);
  }

  /** The `totalOpenness` loop: the average of the four finger ratios. */
  method AverageOpenness(o: Observation) returns (avg: real)
    requires WellFormed(o)
    ensures avg == (Ratio(o, 0) + Ratio(o, 1) + Ratio(o, 2) + Ratio(o, 3)) / 4.0
    ensures avg == MeanRatio(o)
  {
    var total := 0.0;
    for i := 0 to 4
      invariant total == RatioSum(o, i)
    {
      total := total + o.tipDist[i] / o.mcpDist[i];
    }
    avg := total / 4.0;
    FourRatios(o);
  }

  /** If every finger ratio lies in `[lo, hi]`, so does their mean. */
  lemma MeanBetween(o: Observation, lo: real, hi: real)
    requires WellFormed(o)
    requires forall i :: 0 <= i < 4 ==> lo <= Ratio(o, i) <= hi
    ensures lo <= MeanRatio(o) <= hi
  {
    FourRatios(o);
    assert lo <= Ratio(o, 0) <= hi;
    assert lo <= Ratio(o, 1) <= hi;
    assert lo <= Ratio(o, 2) <= hi;
    assert lo <= Ratio(o, 3) <= hi;
  }

  // ---------------------------------------------------------------------------
  // The grip
  // ---------------------------------------------------------------------------

  /** A fist (ratio about 1) gives 1, an open hand (ratio about 2.2) gives 0, clamped to [0, 1]. */
  function GripStrength(avg: real): real
  {
    Max(0.0, Min(1.0, 1.0 - (avg - 1.0) / 1.2))
  }

  lemma GripRange(avg: real)
    ensures 0.0 <= GripStrength(avg) <= 1.0
  {
  }

  lemma GripFist(avg: real)
    requires avg <= 1.0
    ensures GripStrength(avg) == 1.0
  {
  }

  lemma GripOpen(avg: real)
    requires avg >= 2.2
    ensures GripStrength(avg) == 0.0
  {
  }

  /** Between the two ends the grip falls linearly, by 1/1.2 per unit of ratio. */
  lemma GripLinear(avg: real)
    requires 1.0 <= avg <= 2.2
    ensures GripStrength(avg) == (2.2 - avg) / 1.2
  {
  }

  /** Opening the hand never increases the grip. */
  lemma GripMonotone(a: real, b: real)
    requires a <= b
    ensures GripStrength(b) <= GripStrength(a)
  {
    assert (b - 1.0) / 1.2 - (a - 1.0) / 1.2 == (b - a) / 1.2;
  }

  // ---------------------------------------------------------------------------
  // Position, roll and scale
  // ---------------------------------------------------------------------------

  /** Horizontal: 0 (left of the mirrored frame) to -1, 1 to 1. */
  function ScreenX(wx: real): real
  {
    (wx - 0.5) * 2.0
  }

  /** Vertical, inverted: 0 (top of the frame) to 1, 1 to -1. */
  function ScreenY(wy: real): real
  {
    -(wy * 2.0 - 1.0)
  }

  /** The frame coordinate a scene coordinate came from. */
  function FrameX(x: real): real
  {
    x / 2.0 + 0.5
  }

  function FrameY(y: real): real
  {
    (1.0 - y) / 2.0
  }

  /** The maps are bijections between [0, 1] and [-1, 1]: each undoes the other. */
  lemma PositionRoundTrip(wx: real, wy: real, x: real, y: real)
    ensures FrameX(ScreenX(wx)) == wx && FrameY(ScreenY(wy)) == wy
    ensures ScreenX(FrameX(x)) == x && ScreenY(FrameY(y)) == y
  {
  }

  lemma PositionRange(wx: real, wy: real)
    requires 0.0 <= wx <= 1.0 && 0.0 <= wy <= 1.0
    ensures -1.0 <= ScreenX(wx) <= 1.0 && -1.0 <= ScreenY(wy) <= 1.0
    ensures ScreenX(0.0) == -1.0 && ScreenX(1.0) == 1.0
    ensures ScreenY(0.0) == 1.0 && ScreenY(1.0) == -1.0
  {
  }

  /** A hand lower in the frame is lower in the scene; one further right is further right. */
  lemma PositionOrder(a: real, b: real)
    requires a < b
    ensures ScreenX(a) < ScreenX(b) && ScreenY(b) < ScreenY(a)
  {
  }

  /**
   * The roll: the screen-space angle of the wrist-to-middle-knuckle vector, the horizontal
   * difference stretched by the video's aspect ratio, negated and turned back a quarter.
   */
  function Roll(o: Observation, m: MathOps): real
  {
    -m.atan2(DeltaY(o), DeltaX(o)) - PI / 2.0
  }

  function DeltaX(o: Observation): real
  {
    (o.middleBase.x - o.wrist.x) * o.aspectRatio
  }

  function DeltaY(o: Observation): real
  {
    o.middleBase.y - o.wrist.y
  }

  /** The reference hand size 0.15 gives scale 1. */
  const ReferenceSize: real := 0.15

  function HandScale(handSize: real): real
  {
    Max(0.5, Min(3.0, handSize / ReferenceSize))
  }

  lemma ScaleRange(handSize: real)
    ensures 0.5 <= HandScale(handSize) <= 3.0
  {
  }

  /** Inside the clamp the scale is the hand size relative to the reference. */
  lemma ScaleProportional(handSize: real)
    requires 0.5 <= handSize / ReferenceSize <= 3.0
    ensures HandScale(handSize) == handSize / ReferenceSize
    ensures 0.075 <= handSize <= 0.45
  {
  }

  lemma ScaleMonotone(a: real, b: real)
    requires a <= b
    ensures HandScale(a) <= HandScale(b)
  {
    assert b / ReferenceSize - a / ReferenceSize == (b - a) / ReferenceSize;
  }

  // ---------------------------------------------------------------------------
  // The record
  // ---------------------------------------------------------------------------

  /** The record sent for a frame with a hand whose finger ratios average `avgRatio`. */
  function HandRecord(o: Observation, avgRatio: real, m: MathOps): HandData
  {
    HandData(
      true,
      GripStrength(avgRatio),
      Vec3(ScreenX(o.wrist.x), ScreenY(o.wrist.y), 0.0),
      Vec3(0.0, 0.0, Roll(o, m)),
      o.pinchDistance,
      HandScale(o.handSize))
  }

  /** The record sent for a frame with a hand. */
  function PresentHand(o: Observation, m: MathOps): HandData
    requires WellFormed(o)
  {
    HandRecord(o, MeanRatio(o), m)
  }

  /** The inert record sent for a frame without a hand. */
  function AbsentHand(): HandData
  {
    HandData(false, 0.0, Vec3(0.0, 0.0, 0.0), Vec3(0.0, 0.0, 0.0), 1.0, 1.0)
  }

  /** The signal for one video frame; `None` is a frame in which no hand was detected. */
  function HandSignal(obs: Option<Observation>, m: MathOps): HandData
    requires obs.Some? ==> WellFormed(obs.value)
  {
    match obs
    case None => AbsentHand()
    case Some(o) => PresentHand(o, m)
  }

  /** One pass of `predictWebcam` after detection: the openness loop, then the record. */
  method PredictWebcam(obs: Option<Observation>, m: MathOps) returns (h: HandData)
    requires obs.Some? ==> WellFormed(obs.value)
    ensures h == HandSignal(obs, m)
  {
    match obs {
      case None =>
        h := AbsentHand();
      case Some(o) =>
        var avgRatio := AverageOpenness(o);
        h := HandRecord(o, avgRatio, m);
    }
  }

  /** A frame with a hand: present, grip in [0, 1], scale in [0.5, 3], flat position, roll only about z. */
  lemma PresentSignal(o: Observation, m: MathOps)
    requires WellFormed(o)
    ensures var h := HandSignal(Some(o), m);
            && h.isPresent
            && 0.0 <= h.gripStrength <= 1.0
            && 0.5 <= h.scale <= 3.0
            && h.position.z == 0.0
            && h.rotation.x == 0.0 && h.rotation.y == 0.0
            && h.rotation.z == -m.atan2(DeltaY(o), DeltaX(o)) - PI / 2.0
            && h.pinchDistance == o.pinchDistance
  {
    GripRange(MeanRatio(o));
    ScaleRange(o.handSize);
  }

  /** A wrist inside the frame puts the hand inside the square [-1, 1] x [-1, 1]. */
  lemma SignalInSquare(o: Observation, m: MathOps)
    requires WellFormed(o)
    requires 0.0 <= o.wrist.x <= 1.0 && 0.0 <= o.wrist.y <= 1.0
    ensures var h := HandSignal(Some(o), m);
            -1.0 <= h.position.x <= 1.0 && -1.0 <= h.position.y <= 1.0
  {
    PositionRange(o.wrist.x, o.wrist.y);
  }

  /** A frame without a hand: not present, no grip, centred, unrotated, pinch 1, scale 1. */
  lemma AbsentSignal(m: MathOps)
    ensures var h := HandSignal(None, m);
            && !h.isPresent && h.gripStrength == 0.0
            && h.position == Vec3(0.0, 0.0, 0.0) && h.rotation == Vec3(0.0, 0.0, 0.0)
            && h.pinchDistance == 1.0 && h.scale == 1.0
  {
  }
}
