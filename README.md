# CameraOrientationModule, modelled in Dafny

`CameraOrientationModule` is the part of the 360° video renderer that turns two
independent inputs into one camera direction:

- manual panning, `updateCameraPosition(longitude, latitude, isCentered)`;
- device orientation, `updateDeviceOrientation(azimuth, pitch, roll)`.

It holds three nullable fields: the listener (`callbacks`), the last camera
direction (`camera`, longitude/latitude) and the anchor device orientation
(`center`, azimuth/pitch/roll). A pan while anchored shifts the anchor by the
pan's delta, a centering pan discards the anchor, the first sample after that
re-anchors so that it reproduces the current camera direction, and every sample
with a listener and a camera direction present sends `normalize(anchor − sample)`
to the listener and makes it the new camera direction.

The project:

- `Angles.dfy` (module `Angles`): angles as exact reals in radians and
  `Normalize`, the model of `AngleHelper.asPiMinusPiRange`, defined by its
  contract alone: the result is in (−PI, PI] and differs from the input by
  whole turns, and exactly one value does so (`NormalizeUnique`). The
  executable `AsPiMinusPiRange` computes it in closed form (subtract the
  number of turns found with `Floor`) and is proved equal to `Normalize`.
- `OrientationModel.dfy` (module `OrientationModel`): the value classes
  `Device` and `Camera`, the module's state as a value, one function per
  public method, and `Run`, which replays a sequence of calls and collects the
  notifications.
- `CameraOrientationModule.dfy` (module `CameraOrientation`): the class
  `CameraOrientationModule` with the three fields as `Option`s, a ghost log of
  every `onCameraDirectionChanged` call, and the three methods written
  statement by statement like the Java; each is proved to change the fields
  and the log as the matching `OrientationModel` function says, and to keep
  every reported direction in (−PI, PI].
- `OrientationProperties.dfy`: what a single call or a pan-and-sample pair promises.
- `OrientationTraces.dfy`: what holds of any call sequence.
- `TestTraces.dfy`: the call sequences of `CameraOrientationModuleTest`
  replayed exactly, each with the list of notifications the test expects.

`PI` is the decimal value of Java's `Math.PI`, 3.141592653589793, used as an
exact rational, and a full turn is 6.283185307179586. The general lemmas only
use that a turn is 2 * PI; the replayed tests also depend on PI's digits, for
instance where the test's float value of −180° (−3.1415927410125732) lies just
below −PI and so wraps to a value just below +PI.

What the code does, and the model with it:

- Lines 55-61 test only the listener and the camera direction before
  notifying. The anchor always exists there, because lines 45-53 have just
  set it.
- Stored state is not always in (−PI, PI]: a pan stores its angles as given
  (line 41), and the first sample before any pan becomes the anchor verbatim
  (line 47). Reported directions are always in range (`ReportsInRange`,
  `Valid()`), and so are the anchors the module computes by re-anchoring or
  by shifting on a pan (`ComputedAnchorsInRange`).

## Model

| member | source | states |
|---|---|---|
| Angles.Normalize | renderer/src/main/java/com/aol/mobile/sdk/renderer/sensor/CameraOrientationModule.java:12 | the result lies in (−PI, PI] and names the same direction as the input (differs by whole turns) |
| Angles.AsPiMinusPiRange | renderer/src/main/java/com/aol/mobile/sdk/renderer/sensor/CameraOrientationModule.java:12 | the closed-form normalizer used by the class returns exactly Normalize(x) |
| Angles.NormalizeIs | renderer/src/main/java/com/aol/mobile/sdk/renderer/sensor/CameraOrientationModule.java:12 | a value r in (−PI, PI] that differs from x by k whole turns is Normalize(x) |
| Angles.NormalizeUnique | renderer/src/main/java/com/aol/mobile/sdk/renderer/sensor/CameraOrientationModule.java:12 | any value in (−PI, PI] naming the same direction as x is Normalize(x): the contract determines the normalizer |
| Angles.NormalizeSameDirection | renderer/src/main/java/com/aol/mobile/sdk/renderer/sensor/CameraOrientationModule.java:12 | inputs that differ by whole turns normalize to the same value |
| Angles.NormalizeFixesInRange | renderer/src/main/java/com/aol/mobile/sdk/renderer/sensor/CameraOrientationModule.java:12 | a value already in (−PI, PI] is returned unchanged |
| Angles.NormalizeIdempotent | renderer/src/main/java/com/aol/mobile/sdk/renderer/sensor/CameraOrientationModule.java:12 | normalizing twice equals normalizing once |
| Angles.NormalizeBoundary | renderer/src/test/java/com/aol/mobile/sdk/renderer/sensor/CameraOrientationModuleTest.java:133-135 | PI normalizes to PI and −PI wraps to +PI |
| Angles.NormalizeInnerAdd | renderer/src/main/java/com/aol/mobile/sdk/renderer/sensor/CameraOrientationModule.java:35-36 | normalizing an operand before adding does not change the normalized sum |
| Angles.NormalizeOuterSub | renderer/src/main/java/com/aol/mobile/sdk/renderer/sensor/CameraOrientationModule.java:56-57 | normalizing the minuend before subtracting does not change the normalized difference |
| OrientationModel.SetCallbacks | renderer/src/main/java/com/aol/mobile/sdk/renderer/sensor/CameraOrientationModule.java:22-26 | afterwards the listener is the one given; camera and anchor are untouched |
| OrientationModel.UpdateCameraPosition | renderer/src/main/java/com/aol/mobile/sdk/renderer/sensor/CameraOrientationModule.java:28-42 | the camera becomes exactly (lng, lat); the listener is kept; a centering pan leaves no anchor; a pan never creates an anchor and keeps the anchor's pitch |
| OrientationModel.Anchor | renderer/src/main/java/com/aol/mobile/sdk/renderer/sensor/CameraOrientationModule.java:45-53 | an existing anchor is used as it is; a new anchor takes the sample's pitch |
| OrientationModel.UpdateDeviceOrientation | renderer/src/main/java/com/aol/mobile/sdk/renderer/sensor/CameraOrientationModule.java:44-62 | a notification is sent iff a listener and a camera direction are present; it goes to that listener, equals the new camera direction and lies in (−PI, PI]; otherwise the camera is unchanged; afterwards an anchor exists and an existing one is unchanged; the camera is never cleared |
| OrientationProperties.PanMovesAnchor | renderer/src/main/java/com/aol/mobile/sdk/renderer/sensor/CameraOrientationModule.java:32-39 | a non-centering pan while anchored sets azimuth to N(azim + Δlng), roll to N(roll + Δlat), keeps pitch |
| OrientationProperties.PanWithoutAnchorKeepsCenter | renderer/src/main/java/com/aol/mobile/sdk/renderer/sensor/CameraOrientationModule.java:32 | a non-centering pan without both anchor and camera leaves the anchor as it was |
| OrientationProperties.FirstSampleAnchorsVerbatim | renderer/src/main/java/com/aol/mobile/sdk/renderer/sensor/CameraOrientationModule.java:45-47 | with no anchor and no camera, a sample becomes the anchor verbatim and nothing is sent |
| OrientationProperties.SampleReportsAnchorMinusSample | renderer/src/main/java/com/aol/mobile/sdk/renderer/sensor/CameraOrientationModule.java:55-60 | the report is (N(anchor.azim − azimuth), N(anchor.roll − roll)) to the registered listener |
| OrientationProperties.ReanchorReproducesCamera | renderer/src/main/java/com/aol/mobile/sdk/renderer/sensor/CameraOrientationModule.java:48-57 | re-anchoring with a camera present makes the same sample report (N(camera.lng), N(camera.lat)) |
| OrientationProperties.LaterSampleReportsDeviceDelta | renderer/src/main/java/com/aol/mobile/sdk/renderer/sensor/CameraOrientationModule.java:45-59 | after a sample (a, r) re-anchors on camera k, a later sample (a2, r2) reports (N(k.lng + a − a2), N(k.lat + r − r2)): the camera follows the device's movement |
| OrientationProperties.ComputedAnchorsInRange | renderer/src/main/java/com/aol/mobile/sdk/renderer/sensor/CameraOrientationModule.java:32-51 | an anchor made by re-anchoring (lines 49-51) or by a pan's shift (lines 35-38) has azimuth and roll in (−PI, PI] |
| OrientationProperties.RecenterThenSample | renderer/src/main/java/com/aol/mobile/sdk/renderer/sensor/CameraOrientationModule.java:28-61 | centering at (lng, lat) then any sample reports (N(lng), N(lat)) and the result does not depend on the old anchor |
| OrientationProperties.CenterAtOriginThenSampleReportsOrigin | renderer/src/test/java/com/aol/mobile/sdk/renderer/sensor/CameraOrientationModuleTest.java:57-59 | centering at (0, 0) then any sample reports (0, 0) |
| OrientationProperties.PanShiftsReport | renderer/src/main/java/com/aol/mobile/sdk/renderer/sensor/CameraOrientationModule.java:32-39 | a non-centering pan by (Δlng, Δlat) while anchored shifts the report of any sample by (Δlng, Δlat) modulo a turn |
| OrientationProperties.PanThenSameSampleReportsPan | renderer/src/main/java/com/aol/mobile/sdk/renderer/sensor/CameraOrientationModule.java:32-59 | after a reported sample S, a non-centering pan to X and S again reports N(X) |
| OrientationProperties.SetCallbacksIdempotent | renderer/src/main/java/com/aol/mobile/sdk/renderer/sensor/CameraOrientationModule.java:22-26 | registering a listener twice equals registering it once; re-registering the current listener changes nothing |
| OrientationTraces.PanOnlyTraceIsSilent | renderer/src/main/java/com/aol/mobile/sdk/renderer/sensor/CameraOrientationModule.java:28-42 | any call sequence without device samples sends no notification |
| OrientationTraces.AtMostOneNotificationPerSample | renderer/src/main/java/com/aol/mobile/sdk/renderer/sensor/CameraOrientationModule.java:55-61 | a call sequence sends at most one notification per device sample |
| OrientationTraces.ReportsInRange | renderer/src/main/java/com/aol/mobile/sdk/renderer/sensor/CameraOrientationModule.java:56-57 | every direction reported by any call sequence lies in (−PI, PI] |
| OrientationTraces.CameraNeverCleared | renderer/src/main/java/com/aol/mobile/sdk/renderer/sensor/CameraOrientationModule.java:41-59 | once a camera direction is known, no call sequence clears it |
| OrientationTraces.AnchorKeptWithoutCentering | renderer/src/main/java/com/aol/mobile/sdk/renderer/sensor/CameraOrientationModule.java:29-53 | once anchored, a call sequence with no centering pan keeps an anchor |
| OrientationTraces.SamplesKeepAnchor | renderer/src/main/java/com/aol/mobile/sdk/renderer/sensor/CameraOrientationModule.java:45 | device samples alone never change an existing anchor |
| OrientationTraces.RegisteringTwiceReportsOnce | renderer/src/main/java/com/aol/mobile/sdk/renderer/sensor/CameraOrientationModule.java:22-26 | registering the same listener twice and sampling sends exactly one notification, the same as registering once |
| CameraOrientation.CameraOrientationModule.constructor | renderer/src/main/java/com/aol/mobile/sdk/renderer/sensor/CameraOrientationModule.java:14-20 | a new module has no listener, no camera, no anchor and has sent nothing |
| CameraOrientation.CameraOrientationModule.SetCallbacks | renderer/src/main/java/com/aol/mobile/sdk/renderer/sensor/CameraOrientationModule.java:22-26 | the fields become OrientationModel.SetCallbacks of the old ones; the log is unchanged |
| CameraOrientation.CameraOrientationModule.UpdateCameraPosition | renderer/src/main/java/com/aol/mobile/sdk/renderer/sensor/CameraOrientationModule.java:28-42 | the fields become OrientationModel.UpdateCameraPosition of the old ones, including the anchor shift; the log is unchanged |
| CameraOrientation.CameraOrientationModule.UpdateDeviceOrientation | renderer/src/main/java/com/aol/mobile/sdk/renderer/sensor/CameraOrientationModule.java:44-62 | the fields become the model's next state and the log grows by exactly the notification the model sends (one iff listener and camera were present); reported directions stay in range |
| TestTraces.InitialStateTrace | renderer/src/test/java/com/aol/mobile/sdk/renderer/sensor/CameraOrientationModuleTest.java:38-44 | the raw sample after two pans to the origin reports (0, 0) once |
| TestTraces.NoInteractionOnCameraUpdateTrace | renderer/src/test/java/com/aol/mobile/sdk/renderer/sensor/CameraOrientationModuleTest.java:47-53 | three pans send nothing |
| TestTraces.TrivialBehaviorTrace | renderer/src/test/java/com/aol/mobile/sdk/renderer/sensor/CameraOrientationModuleTest.java:56-73 | the reports are (0,0), (−10°,−10°), (−10°,−10°), (0,0), (10°,10°) |
| TestTraces.CriticalAzimuthPointsTrace | renderer/src/test/java/com/aol/mobile/sdk/renderer/sensor/CameraOrientationModuleTest.java:76-95 | the reports wrap at ±180°: (0,0), (−10°,0), (175°,0), (−5°,0), (−5°,0), (0,0) |
| TestTraces.CriticalRollPointsTrace | renderer/src/test/java/com/aol/mobile/sdk/renderer/sensor/CameraOrientationModuleTest.java:98-118 | the roll reports wrap at ±180°: latitudes 0, 60°, −170°, −160°, 90°, 24° |
| TestTraces.OutOfScopeCameraDirectionChangeTrace | renderer/src/test/java/com/aol/mobile/sdk/renderer/sensor/CameraOrientationModuleTest.java:121-136 | pans while anchored move the reports: (0,0), (−90°,30°), (−60°,30°), (180°,−60°) |

## Left out

- The body of `AngleHelper.asPiMinusPiRange`: its source is not part of this model. `Normalize` is defined by the range and congruence contract, which determines it uniquely; `AsPiMinusPiRange` is one closed form meeting it.
- IEEE double arithmetic, rounding, NaN and infinities: angles are exact reals, so the unit tests' tolerance of 0.0001 and their float conversions of degrees (`asRad`) are not modelled; the test traces hold exactly.
- The `VideoVM.Callbacks` interface and its host: a listener is an identity token, and a call of `onCameraDirectionChanged` is an entry in a ghost log. The identity comparison in `setCallbacks` is value equality of tokens.
- The meaning of pitch: it is carried into the anchor and never used for output, as in the code.
- Android's `@Nullable` annotations, the JUnit and Mockito harness, and thread safety (the class is used from one thread and has no locking).
