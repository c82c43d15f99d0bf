# Hand-driven particle cloud, modelled in Dafny

The application shows a cloud of particles that a webcam-tracked hand shapes. Three parts of it are modelled here.

- **The shape generator** (`Geometry`, `geometry.dfy`). `generatePositions` fills a flat `Float32Array` with `count` points of one shape family. The families are sphere, star, cube, helix, rain, fire, tree, flower, butterfly, and the random box used by `RANDOM` and by any unknown kind. `generateTextPositions` scans a 512×512 canvas every second pixel for a red value above 128. It then samples the collected pixels onto the plane. With no 2D context it returns zeros, and with no lit pixel it falls back to the sphere.
- **The particle system** (`ParticleMotion`, `particle_system.dfy`). The class `ParticleSystem` models the component:
  - the target set and the idle set, memoised on `(shape, count, textInput)`;
  - the live position buffer, seeded once per `count` with values in [-25, 25);
  - the frame step `Frame`. It computes one target per particle and moves each coordinate in place the fraction `lerpFactor = 0.08 * speed` of the way towards it. Without a hand the target is a sine drift around the idle point. With a hand it is a grip-weighted blend between a dispersed point and the transformed shape point, plus a small breathing offset.
- **The hand signal** (`HandTracker`, `hand_tracker.dfy`). This is the arithmetic of `predictWebcam` after detection:
  - the mean of the four finger-openness ratios, which is an accumulating loop;
  - the grip clamp, the position map, the roll and the scale clamp;
  - the inert record sent when no hand is seen.

`Common` (`common.dfy`) holds the browser's `Math` as the model sees it. `Types` (`types.dfy`) mirrors the records of `types.ts`. `SignalFlow` (`signal_flow.dfy`) joins the two halves: it imports both the tracker and the particle system, because the page hands each tracker record to the scene.

The modelling choices:

- **Numbers.** Numbers are reals.
- **Randomness.** `Math.random()` is an oracle `nat -> real` with values in [0, 1). Each generator call reads its own oracle, in the order the source draws. For example, the star takes 4 draws per point, including the unused radius, and fire takes 5.
- **Trigonometry.** `sin`, `cos`, `acos`, `sqrt`, `exp` and `atan2` are parameters (`MathOps`). The proofs assume only the facts collected in `Common.Sound`:
  - sine and cosine lie in [-1, 1];
  - `sin 0 = 0` and `cos 0 = 1`;
  - `sin² + cos² = 1`;
  - a shift by π negates both.

  `Sound` idealises π. The half-turn fact is stated at the decimal `Math.PI = 3.141592653589793`, which the true sine and cosine satisfy only up to rounding. So the real functions are not exactly a model of `Sound`, although other functions are.
- **The canvas.** The rendered canvas is an input, `Rasterizer = string -> Option<seq<int>>`, where `None` means there is no 2D context.
- **Integer powers.** `Math.pow` with an integer exponent is written as a product.
- **The transform.** The frame's 4×4 transform has no translation, so it acts on points as its 3×3 block. `Mat3` models that block.

## Model

| member | source | states |
|---|---|---|
| Common.Draws | utils/geometry.ts:57-61 | a block of successive `Math.random()` results holds values in [0, 1), such as the three a CUBE point reads |
| Geometry.GeneratePositions | utils/geometry.ts:19-158 | the returned fresh array holds exactly the points `GeneratedPoints` gives for the kind: the text path for `TEXT`, otherwise one point per index written at `3i, 3i+1, 3i+2` |
| Geometry.GeneratedLength | utils/geometry.ts:24-32 | every kind yields `count` points, and `count = 0` yields the empty buffer |
| Geometry.GeneratedPoint | utils/geometry.ts:32-155 | for a non-text kind, point `i` is the shape's point for index `i` computed from the `i`-th block of random draws |
| Geometry.LayoutUnique | utils/geometry.ts:152-154 | a point layout determines every value of the flat buffer |
| Geometry.PutPoint | utils/geometry.ts:152-154 | writing point `i` sets exactly indices `3i..3i+2` and leaves every other point unchanged |
| Geometry.StorePoint | utils/geometry.ts:152-154 | the three array writes leave the array equal to the old contents with point `i` replaced |
| Geometry.SphereArgInRange | utils/geometry.ts:36 | the argument `-1 + 2i/count` of `acos` lies in [-1, 1) |
| Geometry.SphereOnSurface | utils/geometry.ts:34-39 | every sphere point lies on the sphere of radius 12 (squared norm 144) |
| Geometry.SphericalRadius | utils/geometry.ts:38 | `setFromSphericalCoords(r, phi, theta)` gives a point of squared norm `r * r` |
| Geometry.StarInBall | utils/geometry.ts:41-54 | every star point lies strictly inside the ball of radius 15 |
| Geometry.StarDistBelow | utils/geometry.ts:48 | the star distance `u³ * 15` lies in [0, 15) for a draw `u` in [0, 1) |
| Geometry.CubeBounds | utils/geometry.ts:56-62 | every cube coordinate lies in [-10, 10) |
| Geometry.HelixHeight | utils/geometry.ts:67 | the helix height `(i/count - 0.5) * 30` lies in [-15, 15) |
| Geometry.HelixStrands | utils/geometry.ts:64-76 | even indices lie on the strand `(8 cos t, 8 sin t)` and odd indices on its mirror `(-8 cos t, -8 sin t)` |
| Geometry.HelixRadius | utils/geometry.ts:64-76 | every helix point is at horizontal distance 8 from the axis |
| Geometry.RainBounds | utils/geometry.ts:78-87 | rain heights lie in [-20, 20), the radius lies in [0, 20), and the point is at that horizontal distance from the axis |
| Geometry.FireBounds | utils/geometry.ts:89-99 | fire heights lie in [-12.5, 12.5) and the cone radius lies in [0, 6) |
| Geometry.TreeBounds | utils/geometry.ts:101-112 | tree heights lie in [-15, 15), the radius lies in (0, 12], and the point is at that horizontal distance from the trunk |
| Geometry.FlatShapes | utils/geometry.ts:114-139 | flower and butterfly depths lie in [-1, 1) and the flower radius lies in [0, 14) |
| Geometry.BoxBounds | utils/geometry.ts:141-149 | `RANDOM` and every unlisted kind give coordinates in [-20, 20) |
| Geometry.SphereBuffer | utils/geometry.ts:34-39 | every point of a generated SPHERE buffer has squared norm 144 |
| Geometry.StarBuffer | utils/geometry.ts:41-54 | every point of a generated STAR buffer lies strictly inside the ball of radius 15 |
| Geometry.CubeBuffer | utils/geometry.ts:56-62 | every coordinate of a generated CUBE buffer lies in [-10, 10) |
| Geometry.HelixBuffer | utils/geometry.ts:64-76 | every point of a generated HELIX buffer is at horizontal distance 8 from the axis, at a height in [-15, 15) |
| Geometry.BoxBuffer | utils/geometry.ts:141-149 | every coordinate of a generated `RANDOM` or unlisted-kind buffer lies in [-20, 20) |
| Geometry.ScanPixels | utils/geometry.ts:197-210 | the nested scan loop returns exactly the row-major list `ValidPixels` of bright sampled pixels |
| Geometry.ValidPixelsExact | utils/geometry.ts:201-210 | a pixel is collected if and only if it lies on the even grid inside the canvas with red value above 128, and the list is strictly increasing in row-major order |
| Geometry.RowScanShape | utils/geometry.ts:203-209 | one row's scan holds exactly the bright even columns of that row, in increasing order |
| Geometry.GridScanShape | utils/geometry.ts:202-210 | the scan of the first rows holds exactly the bright sampled pixels above the limit, in row-major order |
| Geometry.PickInRange | utils/geometry.ts:221 | `floor(r * n)` for `r` in [0, 1) is a valid index into `n > 0` pixels |
| Geometry.GenerateTextPositions | utils/geometry.ts:160-236 | the returned fresh array holds exactly `TextPoints`: zeros without a context, the sphere when no pixel is lit, and otherwise one sampled pixel per index |
| Geometry.TextWithoutContext | utils/geometry.ts:166-168 | without a 2D context the buffer has `3 * count` zeros |
| Geometry.TextFallsBackToSphere | utils/geometry.ts:214-217 | with no lit pixel, the text shape equals the sphere shape |
| Geometry.TextPointShape | utils/geometry.ts:219-233 | each text point is a collected foreground pixel mapped onto the plane, with x in [-20, 20), y in (-20, 20] and depth in [-1, 1) |
| Geometry.PixelPlaneBounds | utils/geometry.ts:226-227 | the pixel-to-plane map sends the canvas into x in [-20, 20) and y in (-20, 20] |
| ParticleMotion.RotationAtZero | components/ParticleSystem.tsx:70-76 | the XYZ Euler rotation for zero angles is the identity |
| ParticleMotion.IdentityLeft | components/ParticleSystem.tsx:69-79 | multiplying by the fresh identity `Matrix4` changes nothing |
| ParticleMotion.LerpFactorRange | components/ParticleSystem.tsx:65 | over the speed slider's range [0.1, 3] the lerp factor lies in [0.008, 0.24] |
| ParticleMotion.AbsentParams | components/ParticleSystem.tsx:63-82 | without a hand: grip 0, both offsets 0, scale 1, no roll added, and the frame does not depend on the stale hand fields |
| ParticleMotion.PresentParams | components/ParticleSystem.tsx:63-82 | with a hand: its grip, offsets of 20 times its position, and the transform `I * R(offsets + roll) * S(scale)` |
| ParticleMotion.RestTransform | components/ParticleSystem.tsx:69-79 | zero rotation offsets with no roll and scale 1 give the transform `I * R(0, 0, 0) * S(1)` |
| ParticleMotion.RestMatrix | components/ParticleSystem.tsx:76-79 | `I * R(0, 0, 0) * S(1)` is the identity |
| ParticleMotion.CentredOffsets | components/ParticleSystem.tsx:81-82 | a hand at the centre gives zero offsets |
| ParticleMotion.AtRestParams | components/ParticleSystem.tsx:69-82 | zero rotation offsets with a centred, unrolled hand at scale 1 give the identity transform and no offset |
| ParticleMotion.UntransformedShape | components/ParticleSystem.tsx:103-107 | under the identity transform with no offset, the shaped target is the shape point |
| ParticleMotion.ShapedAtRest | components/ParticleSystem.tsx:103-107 | in that rest configuration the shaped target is the raw generated point |
| ParticleMotion.LerpEnds | components/ParticleSystem.tsx:120-122 | `lerp(a, b, 0) = a` and `lerp(a, b, 1) = b` |
| ParticleMotion.LerpBetween | components/ParticleSystem.tsx:120-122 | for `t` in [0, 1], `lerp(a, b, t)` lies between `a` and `b` |
| ParticleMotion.GripEndpoints | components/ParticleSystem.tsx:112-122 | before the breathing offset, grip 0 gives the dispersed target and grip 1 gives the shaped target |
| ParticleMotion.BlendBetween | components/ParticleSystem.tsx:117-122 | for a grip in [0, 1], each coordinate of the blended target lies between the dispersed and the shaped coordinate |
| ParticleMotion.JitterUniform | components/ParticleSystem.tsx:128-131 | the breathing offset is the same value on all three axes, with magnitude at most 0.1 |
| ParticleMotion.IdleWithin2 | components/ParticleSystem.tsx:96-98 | each idle target is within 2 of its idle point on every axis |
| ParticleMotion.AbsentIgnoresShape | components/ParticleSystem.tsx:93-98 | without a hand, the frame's result does not depend on the shape set |
| ParticleMotion.StepTowardTarget | components/ParticleSystem.tsx:135-137 | for a factor in (0, 1], the new coordinate lies between the old one and the target, and its distance to the target is exactly `(1 - lf)` times the old distance |
| ParticleMotion.StepOvershoots | components/ParticleSystem.tsx:135-137 | for a factor above 1, the coordinate passes the target |
| ParticleMotion.StepsToward | components/ParticleSystem.tsx:134-137 | in one frame every particle's coordinates stay between their old values and the targets, and each distance shrinks by the factor `1 - lf` |
| ParticleMotion.IterateLast | components/ParticleSystem.tsx:135-137 | `n + 1` frames are `n` frames followed by one more |
| ParticleMotion.IterateError | components/ParticleSystem.tsx:135-137 | after `n` frames towards a fixed target, the signed distance is `(1 - lf)^n` times the initial one |
| ParticleMotion.ErrorNonIncreasing | components/ParticleSystem.tsx:135-137 | the distance to a fixed target never grows from one frame to the next |
| ParticleMotion.ErrorBound | components/ParticleSystem.tsx:135-137 | after `n` frames the distance times `1 + n * lf` is at most the initial distance |
| ParticleMotion.CloseAfter | components/ParticleSystem.tsx:135-137 | once `n * eps * lf` exceeds the initial distance, the particle is within `eps` of the target |
| ParticleMotion.Converges | components/ParticleSystem.tsx:135-137 | for every `eps > 0` there is a frame count after which the particle stays within `eps` of a fixed target |
| ParticleMotion.SeedInitial | components/ParticleSystem.tsx:44-52 | the seeding loop returns a fresh buffer holding the seed points `(d - 0.5) * 50` |
| ParticleMotion.SeedBounds | components/ParticleSystem.tsx:44-52 | the seeded buffer has `3 * count` values, all in [-25, 25) |
| ParticleMotion.ParticleSystem.constructor | components/ParticleSystem.tsx:36-52 | mounting generates the target set for the configured shape, the idle set as a random box, and a seeded initial buffer |
| ParticleMotion.ParticleSystem.Render | components/ParticleSystem.tsx:37-52 | a new configuration keeps both point sets when shape, count and text are unchanged, and regenerates them otherwise; it keeps the live buffer when count is unchanged, and otherwise re-seeds it |
| ParticleMotion.ParticleSystem.Frame | components/ParticleSystem.tsx:55-141 | one frame leaves the live buffer equal to `FramePoints` of its old contents under the frame's parameters and time, and the component stays valid |
| ParticleMotion.ParticleSystem.Advance | components/ParticleSystem.tsx:86-138 | the in-place loop moves every particle to its integrated position and changes nothing but the live buffer |
| HandTracker.FourRatios | components/HandTracker.tsx:134-140 | `avgRatio` is the plain mean of the four finger ratios |
| HandTracker.AverageOpenness | components/HandTracker.tsx:134-140 | the accumulating loop returns `(r0 + r1 + r2 + r3) / 4` |
| HandTracker.MeanBetween | components/HandTracker.tsx:134-140 | if every finger ratio lies in `[lo, hi]`, so does the mean |
| HandTracker.GripRange | components/HandTracker.tsx:143-144 | the grip always lies in [0, 1] |
| HandTracker.GripFist | components/HandTracker.tsx:143-144 | a ratio of at most 1 gives grip 1 |
| HandTracker.GripOpen | components/HandTracker.tsx:143-144 | a ratio of at least 2.2 gives grip 0 |
| HandTracker.GripLinear | components/HandTracker.tsx:143-144 | between those two ends the grip is `(2.2 - avg) / 1.2` |
| HandTracker.GripMonotone | components/HandTracker.tsx:143-144 | opening the hand never increases the grip |
| HandTracker.PositionRoundTrip | components/HandTracker.tsx:161-167 | the position maps are inverted by `x / 2 + 0.5` and `(1 - y) / 2`, in both directions |
| HandTracker.PositionRange | components/HandTracker.tsx:161-167 | wrist coordinates in [0, 1] map into [-1, 1]; the left edge maps to -1, and the top edge (`wrist.y = 0`) maps to `y = 1` |
| HandTracker.PositionOrder | components/HandTracker.tsx:161-167 | x keeps the order of the frame coordinates and y reverses it |
| HandTracker.ScaleRange | components/HandTracker.tsx:170-172 | the scale always lies in [0.5, 3] |
| HandTracker.ScaleProportional | components/HandTracker.tsx:170-172 | inside the clamp the scale is `handSize / 0.15`, which happens for hand sizes in [0.075, 0.45] |
| HandTracker.ScaleMonotone | components/HandTracker.tsx:170-172 | a larger hand never gets a smaller scale |
| HandTracker.PredictWebcam | components/HandTracker.tsx:123-191 | the detection branch emits exactly `HandSignal`: the present record when a hand is seen, the inert one otherwise |
| HandTracker.PresentSignal | components/HandTracker.tsx:146-181 | a seen hand gives a present record with grip in [0, 1], scale in [0.5, 3] and position z 0; its rotation is only about z, by `-atan2(dy, dx * aspect) - π/2` for the wrist-to-middle-knuckle vector; it carries the measured pinch distance |
| HandTracker.SignalInSquare | components/HandTracker.tsx:158-167 | a wrist inside the frame puts the hand position inside [-1, 1] × [-1, 1] |
| HandTracker.AbsentSignal | components/HandTracker.tsx:182-190 | no hand gives `isPresent = false`, grip 0, position and rotation 0, pinch distance 1 and scale 1 |
| SignalFlow.SignalGripInRange | components/HandTracker.tsx:143-176 | whatever the camera sees, the grip the particle frame uses lies in [0, 1] |

## Left out

- Rendering is not modelled: the circular sprite texture, the `pointsMaterial`, the `needsUpdate` flag and the React tree (components/ParticleSystem.tsx:17-34, 140-164).
- Canvas text rendering is not modelled: font fitting, `measureText` and `fillText` (utils/geometry.ts:170-193). The pixel data they produce is an input.
- The camera and the detector are not modelled: MediaPipe loading, `getUserMedia`, mirroring, `drawLandmarks` and `requestAnimationFrame` (components/HandTracker.tsx:14-121, 193-244). These are I/O and foreign library calls. The detector's output enters as an `Observation` holding the landmark distances.
- `dist` is not modelled; its results are inputs, because it is a `sqrt` of squares.
- components/Controls.tsx is user interface. Only the speed slider's range is used, as the precondition of `LerpFactorRange`.
- App.tsx is not part of this model. Its ref that holds the latest hand record is replaced by passing the record to `Frame`.
- The early return when the points object is not mounted yet (components/ParticleSystem.tsx:56) is not modelled; `Frame` assumes a mounted component.
- The clock is an input: `performance.now()` enters `Frame` as `now`, in milliseconds.
- Floating point is not modelled: reals replace Float32 and double arithmetic, so rounding, overflow, NaN and infinity are not captured.
- HandTracker.AverageOpenness: requires every knuckle distance to be positive. With a zero knuckle distance and a positive tip distance, the source's ratio is +Infinity, and the clamp at components/HandTracker.tsx:143-144 turns that into grip 0. When the tip distance is also 0 the ratio is NaN, and NaN passes through the clamp. The model represents neither case.
- HandTracker.PredictWebcam: requires a seen hand to be well formed: four fingers, each with a positive knuckle distance. A zero knuckle distance makes the source send grip 0, or NaN when the tip distance is also 0, and the model represents neither.
- Trigonometric identities beyond those in `Sound` are not assumed. The three.js Euler convention is written out from its matrix entries and not derived.
- Distributional properties are not stated: equal-area sphere spacing, the star's density, the tree canopy, and the uniformity of the sampled pixels. They are statistics, not facts about single runs.
- One shared `Math.random()` stream is modelled as one oracle per generator call. The order of draws inside a call is kept; the interleaving between calls is not.
- `randomInSphere` (utils/geometry.ts:5-16) is unused and not modelled. The unused star radius `rStar` (utils/geometry.ts:43) is modelled only as the draw it consumes.
- The comment at utils/geometry.ts:181 says 90% of the width, but the code's `maxWidth` is `512 - 40`. Both belong to font fitting, which is left out.
- `Types.ShapeType.Unlisted` stands for a run-time string outside the enum. It exists only to reach the generator's `default` arm.
