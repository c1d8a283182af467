/**
 * The call sequences of `CameraOrientationModuleTest`, replayed on the model
 * with exact angles: each lemma states the notifications the listener receives.
 */
module TestTraces {
  import opened Angles
  import opened OrientationModel
  import OrientationTraces

  /** Degrees to radians. */
  function Deg(d: real): real {
    d * PI / 180.0
  }

  /** A notification of (lng, lat), given in degrees, to `l`. */
  function Report(l: Listener, lng: real, lat: real): Notification {
    Notification(l, Deg(lng), Deg(lat))
  }

  /** The module with `l` registered, camera direction `cam` and anchor `center`. */
  function At(l: Listener, cam: Option<Camera>, center: Option<Device>): ModuleState {
    ModuleState(Some(l), cam, center)
  }

  /** A camera direction given in degrees. */
  function Cam(lng: real, lat: real): Option<Camera> {
    Some(Camera(Deg(lng), Deg(lat)))
  }

  /** An anchor with the given azimuth and roll in degrees, and pitch zero. */
  function Dev(azim: real, roll: real): Option<Device> {
    Some(Device(Deg(azim), 0.0, Deg(roll)))
  }

  // ----- testTrivialBehavior -----------------------------------------

  /** The calls `testTrivialBehavior` makes after its set-up. */
  function TrivialBehaviorCalls(): seq<Event> {
    [
      Pan(0.0, 0.0, true),
      Sample(0.0, 0.0, Deg(90.0)),
      Sample(Deg(10.0), 0.0, Deg(100.0)),
      Pan(0.0, 0.0, false),
      Sample(Deg(20.0), 0.0, Deg(110.0)),
      Sample(Deg(10.0), 0.0, Deg(100.0)),
      Sample(0.0, 0.0, Deg(90.0))
    ]
  }

  /** The notifications `testTrivialBehavior` expects, in order. */
  function TrivialBehaviorLog(l: Listener): seq<Notification> {
    [Report(l, 0.0, 0.0), Report(l, -10.0, -10.0), Report(l, -10.0, -10.0), Report(l, 0.0, 0.0), Report(l, 10.0, 10.0)]
  }

  lemma TrivialBehaviorFrom7(l: Listener)
    ensures Run(At(l, Cam(10.0, 10.0), Dev(10.0, 100.0)), TrivialBehaviorCalls()[7..]) == Trace(At(l, Cam(10.0, 10.0), Dev(10.0, 100.0)), TrivialBehaviorLog(l)[5..])
  {
    assert TrivialBehaviorCalls()[7..] == [] && TrivialBehaviorLog(l)[5..] == [];
  }

  lemma TrivialBehaviorFrom6(l: Listener)
    ensures Run(At(l, Cam(0.0, 0.0), Dev(10.0, 100.0)), TrivialBehaviorCalls()[6..]) == Trace(At(l, Cam(10.0, 10.0), Dev(10.0, 100.0)), TrivialBehaviorLog(l)[4..])
  {
    var calls := TrivialBehaviorCalls()[6..];
    assert calls[0] == Sample(0.0, 0.0, Deg(90.0)) && calls[1..] == TrivialBehaviorCalls()[7..];
    NormalizeIs(Deg(10.0) - 0.0, Deg(10.0), 0);
    NormalizeIs(Deg(100.0) - Deg(90.0), Deg(10.0), 0);
    assert Apply(At(l, Cam(0.0, 0.0), Dev(10.0, 100.0)), calls[0]) == Step(At(l, Cam(10.0, 10.0), Dev(10.0, 100.0)), Some(Report(l, 10.0, 10.0)));
    assert TrivialBehaviorLog(l)[4..] == [Report(l, 10.0, 10.0)] + TrivialBehaviorLog(l)[5..];
    TrivialBehaviorFrom7(l);
  }

  lemma TrivialBehaviorFrom5(l: Listener)
    ensures Run(At(l, Cam(-10.0, -10.0), Dev(10.0, 100.0)), TrivialBehaviorCalls()[5..]) == Trace(At(l, Cam(10.0, 10.0), Dev(10.0, 100.0)), TrivialBehaviorLog(l)[3..])
  {
    var calls := TrivialBehaviorCalls()[5..];
    assert calls[0] == Sample(Deg(10.0), 0.0, Deg(100.0)) && calls[1..] == TrivialBehaviorCalls()[6..];
    NormalizeIs(Deg(10.0) - Deg(10.0), 0.0, 0);
    NormalizeIs(Deg(100.0) - Deg(100.0), 0.0, 0);
    assert Apply(At(l, Cam(-10.0, -10.0), Dev(10.0, 100.0)), calls[0]) == Step(At(l, Cam(0.0, 0.0), Dev(10.0, 100.0)), Some(Report(l, 0.0, 0.0)));
    assert TrivialBehaviorLog(l)[3..] == [Report(l, 0.0, 0.0)] + TrivialBehaviorLog(l)[4..];
    TrivialBehaviorFrom6(l);
  }

  lemma TrivialBehaviorFrom4(l: Listener)
    ensures Run(At(l, Cam(0.0, 0.0), Dev(10.0, 100.0)), TrivialBehaviorCalls()[4..]) == Trace(At(l, Cam(10.0, 10.0), Dev(10.0, 100.0)), TrivialBehaviorLog(l)[2..])
  {
    var calls := TrivialBehaviorCalls()[4..];
    assert calls[0] == Sample(Deg(20.0), 0.0, Deg(110.0)) && calls[1..] == TrivialBehaviorCalls()[5..];
    NormalizeIs(Deg(10.0) - Deg(20.0), Deg(-10.0), 0);
    NormalizeIs(Deg(100.0) - Deg(110.0), Deg(-10.0), 0);
    assert Apply(At(l, Cam(0.0, 0.0), Dev(10.0, 100.0)), calls[0]) == Step(At(l, Cam(-10.0, -10.0), Dev(10.0, 100.0)), Some(Report(l, -10.0, -10.0)));
    assert TrivialBehaviorLog(l)[2..] == [Report(l, -10.0, -10.0)] + TrivialBehaviorLog(l)[3..];
    TrivialBehaviorFrom5(l);
  }

  lemma TrivialBehaviorFrom3(l: Listener)
    ensures Run(At(l, Cam(-10.0, -10.0), Dev(0.0, 90.0)), TrivialBehaviorCalls()[3..]) == Trace(At(l, Cam(10.0, 10.0), Dev(10.0, 100.0)), TrivialBehaviorLog(l)[2..])
  {
    var calls := TrivialBehaviorCalls()[3..];
    assert calls[0] == Pan(0.0, 0.0, false) && calls[1..] == TrivialBehaviorCalls()[4..];
    NormalizeIs(Deg(0.0) + (0.0 - Deg(-10.0)), Deg(10.0), 0);
    NormalizeIs(Deg(90.0) + (0.0 - Deg(-10.0)), Deg(100.0), 0);
    assert Apply(At(l, Cam(-10.0, -10.0), Dev(0.0, 90.0)), calls[0]) == Step(At(l, Cam(0.0, 0.0), Dev(10.0, 100.0)), None);
    TrivialBehaviorFrom4(l);
  }

  lemma TrivialBehaviorFrom2(l: Listener)
    ensures Run(At(l, Cam(0.0, 0.0), Dev(0.0, 90.0)), TrivialBehaviorCalls()[2..]) == Trace(At(l, Cam(10.0, 10.0), Dev(10.0, 100.0)), TrivialBehaviorLog(l)[1..])
  {
    var calls := TrivialBehaviorCalls()[2..];
    assert calls[0] == Sample(Deg(10.0), 0.0, Deg(100.0)) && calls[1..] == TrivialBehaviorCalls()[3..];
    NormalizeIs(Deg(0.0) - Deg(10.0), Deg(-10.0), 0);
    NormalizeIs(Deg(90.0) - Deg(100.0), Deg(-10.0), 0);
    assert Apply(At(l, Cam(0.0, 0.0), Dev(0.0, 90.0)), calls[0]) == Step(At(l, Cam(-10.0, -10.0), Dev(0.0, 90.0)), Some(Report(l, -10.0, -10.0)));
    assert TrivialBehaviorLog(l)[1..] == [Report(l, -10.0, -10.0)] + TrivialBehaviorLog(l)[2..];
    TrivialBehaviorFrom3(l);
  }

  lemma TrivialBehaviorFrom1(l: Listener)
    ensures Run(At(l, Cam(0.0, 0.0), None), TrivialBehaviorCalls()[1..]) == Trace(At(l, Cam(10.0, 10.0), Dev(10.0, 100.0)), TrivialBehaviorLog(l)[0..])
  {
    var calls := TrivialBehaviorCalls()[1..];
    assert calls[0] == Sample(0.0, 0.0, Deg(90.0)) && calls[1..] == TrivialBehaviorCalls()[2..];
    NormalizeIs(Deg(0.0) + 0.0, 0.0, 0);
    NormalizeIs(Deg(0.0) + Deg(90.0), Deg(90.0), 0);
    NormalizeIs(Deg(0.0) - 0.0, 0.0, 0);
    NormalizeIs(Deg(90.0) - Deg(90.0), 0.0, 0);
    assert Apply(At(l, Cam(0.0, 0.0), None), calls[0]) == Step(At(l, Cam(0.0, 0.0), Dev(0.0, 90.0)), Some(Report(l, 0.0, 0.0)));
    assert TrivialBehaviorLog(l)[0..] == [Report(l, 0.0, 0.0)] + TrivialBehaviorLog(l)[1..];
    TrivialBehaviorFrom2(l);
  }

  lemma TrivialBehaviorFrom0(l: Listener)
    ensures Run(At(l, None, None), TrivialBehaviorCalls()[0..]) == Trace(At(l, Cam(10.0, 10.0), Dev(10.0, 100.0)), TrivialBehaviorLog(l)[0..])
  {
    var calls := TrivialBehaviorCalls()[0..];
    assert calls[0] == Pan(0.0, 0.0, true) && calls[1..] == TrivialBehaviorCalls()[1..];
    assert Apply(At(l, None, None), calls[0]) == Step(At(l, Cam(0.0, 0.0), None), None);
    TrivialBehaviorFrom1(l);
  }

  lemma TrivialBehaviorTrace(l: Listener)
    ensures Run(SetCallbacks(Initial, Some(l)), TrivialBehaviorCalls()).log == TrivialBehaviorLog(l)
  {
    assert SetCallbacks(Initial, Some(l)) == At(l, None, None);
    assert TrivialBehaviorCalls()[0..] == TrivialBehaviorCalls() && TrivialBehaviorLog(l)[0..] == TrivialBehaviorLog(l);
    TrivialBehaviorFrom0(l);
  }

  // ----- testCriticalAzimuthPoints -----------------------------------

  /** The calls `testCriticalAzimuthPoints` makes after its set-up. */
  function CriticalAzimuthPointsCalls(): seq<Event> {
    [
      Pan(0.0, 0.0, true),
      Sample(Deg(175.0), 0.0, 0.0),
      Sample(Deg(-175.0), 0.0, 0.0),
      Sample(0.0, 0.0, 0.0),
      Sample(Deg(180.0), 0.0, 0.0),
      Sample(Deg(-180.0), 0.0, 0.0),
      Pan(0.0, 0.0, true),
      Sample(Deg(90.0), 0.0, 0.0)
    ]
  }

  /** The notifications `testCriticalAzimuthPoints` expects, in order. */
  function CriticalAzimuthPointsLog(l: Listener): seq<Notification> {
    [Report(l, 0.0, 0.0), Report(l, -10.0, 0.0), Report(l, 175.0, 0.0), Report(l, -5.0, 0.0), Report(l, -5.0, 0.0), Report(l, 0.0, 0.0)]
  }

  lemma CriticalAzimuthPointsFrom8(l: Listener)
    ensures Run(At(l, Cam(0.0, 0.0), Dev(90.0, 0.0)), CriticalAzimuthPointsCalls()[8..]) == Trace(At(l, Cam(0.0, 0.0), Dev(90.0, 0.0)), CriticalAzimuthPointsLog(l)[6..])
  {
    assert CriticalAzimuthPointsCalls()[8..] == [] && CriticalAzimuthPointsLog(l)[6..] == [];
  }

  lemma CriticalAzimuthPointsFrom7(l: Listener)
    ensures Run(At(l, Cam(0.0, 0.0), None), CriticalAzimuthPointsCalls()[7..]) == Trace(At(l, Cam(0.0, 0.0), Dev(90.0, 0.0)), CriticalAzimuthPointsLog(l)[5..])
  {
    var calls := CriticalAzimuthPointsCalls()[7..];
    assert calls[0] == Sample(Deg(90.0), 0.0, 0.0) && calls[1..] == CriticalAzimuthPointsCalls()[8..];
    NormalizeIs(Deg(0.0) + Deg(90.0), Deg(90.0), 0);
    NormalizeIs(Deg(0.0) + 0.0, 0.0, 0);
    NormalizeIs(Deg(90.0) - Deg(90.0), 0.0, 0);
    NormalizeIs(Deg(0.0) - 0.0, 0.0, 0);
    assert Apply(At(l, Cam(0.0, 0.0), None), calls[0]) == Step(At(l, Cam(0.0, 0.0), Dev(90.0, 0.0)), Some(Report(l, 0.0, 0.0)));
    assert CriticalAzimuthPointsLog(l)[5..] == [Report(l, 0.0, 0.0)] + CriticalAzimuthPointsLog(l)[6..];
    CriticalAzimuthPointsFrom8(l);
  }

  lemma CriticalAzimuthPointsFrom6(l: Listener)
    ensures Run(At(l, Cam(-5.0, 0.0), Dev(175.0, 0.0)), CriticalAzimuthPointsCalls()[6..]) == Trace(At(l, Cam(0.0, 0.0), Dev(90.0, 0.0)), CriticalAzimuthPointsLog(l)[5..])
  {
    var calls := CriticalAzimuthPointsCalls()[6..];
    assert calls[0] == Pan(0.0, 0.0, true) && calls[1..] == CriticalAzimuthPointsCalls()[7..];
    assert Apply(At(l, Cam(-5.0, 0.0), Dev(175.0, 0.0)), calls[0]) == Step(At(l, Cam(0.0, 0.0), None), None);
    CriticalAzimuthPointsFrom7(l);
  }

  lemma CriticalAzimuthPointsFrom5(l: Listener)
    ensures Run(At(l, Cam(-5.0, 0.0), Dev(175.0, 0.0)), CriticalAzimuthPointsCalls()[5..]) == Trace(At(l, Cam(0.0, 0.0), Dev(90.0, 0.0)), CriticalAzimuthPointsLog(l)[4..])
  {
    var calls := CriticalAzimuthPointsCalls()[5..];
    assert calls[0] == Sample(Deg(-180.0), 0.0, 0.0) && calls[1..] == CriticalAzimuthPointsCalls()[6..];
    NormalizeIs(Deg(175.0) - Deg(-180.0), Deg(-5.0), 1);
    NormalizeIs(Deg(0.0) - 0.0, 0.0, 0);
    assert Apply(At(l, Cam(-5.0, 0.0), Dev(175.0, 0.0)), calls[0]) == Step(At(l, Cam(-5.0, 0.0), Dev(175.0, 0.0)), Some(Report(l, -5.0, 0.0)));
    assert CriticalAzimuthPointsLog(l)[4..] == [Report(l, -5.0, 0.0)] + CriticalAzimuthPointsLog(l)[5..];
    CriticalAzimuthPointsFrom6(l);
  }

  lemma CriticalAzimuthPointsFrom4(l: Listener)
    ensures Run(At(l, Cam(175.0, 0.0), Dev(175.0, 0.0)), CriticalAzimuthPointsCalls()[4..]) == Trace(At(l, Cam(0.0, 0.0), Dev(90.0, 0.0)), CriticalAzimuthPointsLog(l)[3..])
  {
    var calls := CriticalAzimuthPointsCalls()[4..];
    assert calls[0] == Sample(Deg(180.0), 0.0, 0.0) && calls[1..] == CriticalAzimuthPointsCalls()[5..];
    NormalizeIs(Deg(175.0) - Deg(180.0), Deg(-5.0), 0);
    NormalizeIs(Deg(0.0) - 0.0, 0.0, 0);
    assert Apply(At(l, Cam(175.0, 0.0), Dev(175.0, 0.0)), calls[0]) == Step(At(l, Cam(-5.0, 0.0), Dev(175.0, 0.0)), Some(Report(l, -5.0, 0.0)));
    assert CriticalAzimuthPointsLog(l)[3..] == [Report(l, -5.0, 0.0)] + CriticalAzimuthPointsLog(l)[4..];
    CriticalAzimuthPointsFrom5(l);
  }

  lemma CriticalAzimuthPointsFrom3(l: Listener)
    ensures Run(At(l, Cam(-10.0, 0.0), Dev(175.0, 0.0)), CriticalAzimuthPointsCalls()[3..]) == Trace(At(l, Cam(0.0, 0.0), Dev(90.0, 0.0)), CriticalAzimuthPointsLog(l)[2..])
  {
    var calls := CriticalAzimuthPointsCalls()[3..];
    assert calls[0] == Sample(0.0, 0.0, 0.0) && calls[1..] == CriticalAzimuthPointsCalls()[4..];
    NormalizeIs(Deg(175.0) - 0.0, Deg(175.0), 0);
    NormalizeIs(Deg(0.0) - 0.0, 0.0, 0);
    assert Apply(At(l, Cam(-10.0, 0.0), Dev(175.0, 0.0)), calls[0]) == Step(At(l, Cam(175.0, 0.0), Dev(175.0, 0.0)), Some(Report(l, 175.0, 0.0)));
    assert CriticalAzimuthPointsLog(l)[2..] == [Report(l, 175.0, 0.0)] + CriticalAzimuthPointsLog(l)[3..];
    CriticalAzimuthPointsFrom4(l);
  }

  lemma CriticalAzimuthPointsFrom2(l: Listener)
    ensures Run(At(l, Cam(0.0, 0.0), Dev(175.0, 0.0)), CriticalAzimuthPointsCalls()[2..]) == Trace(At(l, Cam(0.0, 0.0), Dev(90.0, 0.0)), CriticalAzimuthPointsLog(l)[1..])
  {
    var calls := CriticalAzimuthPointsCalls()[2..];
    assert calls[0] == Sample(Deg(-175.0), 0.0, 0.0) && calls[1..] == CriticalAzimuthPointsCalls()[3..];
    NormalizeIs(Deg(175.0) - Deg(-175.0), Deg(-10.0), 1);
    NormalizeIs(Deg(0.0) - 0.0, 0.0, 0);
    assert Apply(At(l, Cam(0.0, 0.0), Dev(175.0, 0.0)), calls[0]) == Step(At(l, Cam(-10.0, 0.0), Dev(175.0, 0.0)), Some(Report(l, -10.0, 0.0)));
    assert CriticalAzimuthPointsLog(l)[1..] == [Report(l, -10.0, 0.0)] + CriticalAzimuthPointsLog(l)[2..];
    CriticalAzimuthPointsFrom3(l);
  }

  lemma CriticalAzimuthPointsFrom1(l: Listener)
    ensures Run(At(l, Cam(0.0, 0.0), None), CriticalAzimuthPointsCalls()[1..]) == Trace(At(l, Cam(0.0, 0.0), Dev(90.0, 0.0)), CriticalAzimuthPointsLog(l)[0..])
  {
    var calls := CriticalAzimuthPointsCalls()[1..];
    assert calls[0] == Sample(Deg(175.0), 0.0, 0.0) && calls[1..] == CriticalAzimuthPointsCalls()[2..];
    NormalizeIs(Deg(0.0) + Deg(175.0), Deg(175.0), 0);
    NormalizeIs(Deg(0.0) + 0.0, 0.0, 0);
    NormalizeIs(Deg(175.0) - Deg(175.0), 0.0, 0);
    NormalizeIs(Deg(0.0) - 0.0, 0.0, 0);
    assert Apply(At(l, Cam(0.0, 0.0), None), calls[0]) == Step(At(l, Cam(0.0, 0.0), Dev(175.0, 0.0)), Some(Report(l, 0.0, 0.0)));
    assert CriticalAzimuthPointsLog(l)[0..] == [Report(l, 0.0, 0.0)] + CriticalAzimuthPointsLog(l)[1..];
    CriticalAzimuthPointsFrom2(l);
  }

  lemma CriticalAzimuthPointsFrom0(l: Listener)
    ensures Run(At(l, None, None), CriticalAzimuthPointsCalls()[0..]) == Trace(At(l, Cam(0.0, 0.0), Dev(90.0, 0.0)), CriticalAzimuthPointsLog(l)[0..])
  {
    var calls := CriticalAzimuthPointsCalls()[0..];
    assert calls[0] == Pan(0.0, 0.0, true) && calls[1..] == CriticalAzimuthPointsCalls()[1..];
    assert Apply(At(l, None, None), calls[0]) == Step(At(l, Cam(0.0, 0.0), None), None);
    CriticalAzimuthPointsFrom1(l);
  }

  lemma CriticalAzimuthPointsTrace(l: Listener)
    ensures Run(SetCallbacks(Initial, Some(l)), CriticalAzimuthPointsCalls()).log == CriticalAzimuthPointsLog(l)
  {
    assert SetCallbacks(Initial, Some(l)) == At(l, None, None);
    assert CriticalAzimuthPointsCalls()[0..] == CriticalAzimuthPointsCalls() && CriticalAzimuthPointsLog(l)[0..] == CriticalAzimuthPointsLog(l);
    CriticalAzimuthPointsFrom0(l);
  }

  // ----- testCriticalRollPoints --------------------------------------

  /** The calls `testCriticalRollPoints` makes after its set-up. */
  function CriticalRollPointsCalls(): seq<Event> {
    [
      Pan(0.0, 0.0, true),
      Sample(Deg(180.0), 0.0, Deg(90.0)),
      Sample(Deg(180.0), 0.0, Deg(30.0)),
      Sample(Deg(180.0), 0.0, Deg(-100.0)),
      Sample(Deg(180.0), 0.0, Deg(-110.0)),
      Sample(Deg(180.0), 0.0, 0.0),
      Pan(0.0, Deg(90.0), false),
      Sample(Deg(180.0), 0.0, Deg(66.0))
    ]
  }

  /** The notifications `testCriticalRollPoints` expects, in order. */
  function CriticalRollPointsLog(l: Listener): seq<Notification> {
    [Report(l, 0.0, 0.0), Report(l, 0.0, 60.0), Report(l, 0.0, -170.0), Report(l, 0.0, -160.0), Report(l, 0.0, 90.0), Report(l, 0.0, 24.0)]
  }

  lemma CriticalRollPointsFrom8(l: Listener)
    ensures Run(At(l, Cam(0.0, 24.0), Dev(180.0, 90.0)), CriticalRollPointsCalls()[8..]) == Trace(At(l, Cam(0.0, 24.0), Dev(180.0, 90.0)), CriticalRollPointsLog(l)[6..])
  {
    assert CriticalRollPointsCalls()[8..] == [] && CriticalRollPointsLog(l)[6..] == [];
  }

  lemma CriticalRollPointsFrom7(l: Listener)
    ensures Run(At(l, Cam(0.0, 90.0), Dev(180.0, 90.0)), CriticalRollPointsCalls()[7..]) == Trace(At(l, Cam(0.0, 24.0), Dev(180.0, 90.0)), CriticalRollPointsLog(l)[5..])
  {
    var calls := CriticalRollPointsCalls()[7..];
    assert calls[0] == Sample(Deg(180.0), 0.0, Deg(66.0)) && calls[1..] == CriticalRollPointsCalls()[8..];
    NormalizeIs(Deg(180.0) - Deg(180.0), 0.0, 0);
    NormalizeIs(Deg(90.0) - Deg(66.0), Deg(24.0), 0);
    assert Apply(At(l, Cam(0.0, 90.0), Dev(180.0, 90.0)), calls[0]) == Step(At(l, Cam(0.0, 24.0), Dev(180.0, 90.0)), Some(Report(l, 0.0, 24.0)));
    assert CriticalRollPointsLog(l)[5..] == [Report(l, 0.0, 24.0)] + CriticalRollPointsLog(l)[6..];
    CriticalRollPointsFrom8(l);
  }

  lemma CriticalRollPointsFrom6(l: Listener)
    ensures Run(At(l, Cam(0.0, 90.0), Dev(180.0, 90.0)), CriticalRollPointsCalls()[6..]) == Trace(At(l, Cam(0.0, 24.0), Dev(180.0, 90.0)), CriticalRollPointsLog(l)[5..])
  {
    var calls := CriticalRollPointsCalls()[6..];
    assert calls[0] == Pan(0.0, Deg(90.0), false) && calls[1..] == CriticalRollPointsCalls()[7..];
    NormalizeIs(Deg(180.0) + (0.0 - Deg(0.0)), Deg(180.0), 0);
    NormalizeIs(Deg(90.0) + (Deg(90.0) - Deg(90.0)), Deg(90.0), 0);
    assert Apply(At(l, Cam(0.0, 90.0), Dev(180.0, 90.0)), calls[0]) == Step(At(l, Cam(0.0, 90.0), Dev(180.0, 90.0)), None);
    CriticalRollPointsFrom7(l);
  }

  lemma CriticalRollPointsFrom5(l: Listener)
    ensures Run(At(l, Cam(0.0, -160.0), Dev(180.0, 90.0)), CriticalRollPointsCalls()[5..]) == Trace(At(l, Cam(0.0, 24.0), Dev(180.0, 90.0)), CriticalRollPointsLog(l)[4..])
  {
    var calls := CriticalRollPointsCalls()[5..];
    assert calls[0] == Sample(Deg(180.0), 0.0, 0.0) && calls[1..] == CriticalRollPointsCalls()[6..];
    NormalizeIs(Deg(180.0) - Deg(180.0), 0.0, 0);
    NormalizeIs(Deg(90.0) - 0.0, Deg(90.0), 0);
    assert Apply(At(l, Cam(0.0, -160.0), Dev(180.0, 90.0)), calls[0]) == Step(At(l, Cam(0.0, 90.0), Dev(180.0, 90.0)), Some(Report(l, 0.0, 90.0)));
    assert CriticalRollPointsLog(l)[4..] == [Report(l, 0.0, 90.0)] + CriticalRollPointsLog(l)[5..];
    CriticalRollPointsFrom6(l);
  }

  lemma CriticalRollPointsFrom4(l: Listener)
    ensures Run(At(l, Cam(0.0, -170.0), Dev(180.0, 90.0)), CriticalRollPointsCalls()[4..]) == Trace(At(l, Cam(0.0, 24.0), Dev(180.0, 90.0)), CriticalRollPointsLog(l)[3..])
  {
    var calls := CriticalRollPointsCalls()[4..];
    assert calls[0] == Sample(Deg(180.0), 0.0, Deg(-110.0)) && calls[1..] == CriticalRollPointsCalls()[5..];
    NormalizeIs(Deg(180.0) - Deg(180.0), 0.0, 0);
    NormalizeIs(Deg(90.0) - Deg(-110.0), Deg(-160.0), 1);
    assert Apply(At(l, Cam(0.0, -170.0), Dev(180.0, 90.0)), calls[0]) == Step(At(l, Cam(0.0, -160.0), Dev(180.0, 90.0)), Some(Report(l, 0.0, -160.0)));
    assert CriticalRollPointsLog(l)[3..] == [Report(l, 0.0, -160.0)] + CriticalRollPointsLog(l)[4..];
    CriticalRollPointsFrom5(l);
  }

  lemma CriticalRollPointsFrom3(l: Listener)
    ensures Run(At(l, Cam(0.0, 60.0), Dev(180.0, 90.0)), CriticalRollPointsCalls()[3..]) == Trace(At(l, Cam(0.0, 24.0), Dev(180.0, 90.0)), CriticalRollPointsLog(l)[2..])
  {
    var calls := CriticalRollPointsCalls()[3..];
    assert calls[0] == Sample(Deg(180.0), 0.0, Deg(-100.0)) && calls[1..] == CriticalRollPointsCalls()[4..];
    NormalizeIs(Deg(180.0) - Deg(180.0), 0.0, 0);
    NormalizeIs(Deg(90.0) - Deg(-100.0), Deg(-170.0), 1);
    assert Apply(At(l, Cam(0.0, 60.0), Dev(180.0, 90.0)), calls[0]) == Step(At(l, Cam(0.0, -170.0), Dev(180.0, 90.0)), Some(Report(l, 0.0, -170.0)));
    assert CriticalRollPointsLog(l)[2..] == [Report(l, 0.0, -170.0)] + CriticalRollPointsLog(l)[3..];
    CriticalRollPointsFrom4(l);
  }

  lemma CriticalRollPointsFrom2(l: Listener)
    ensures Run(At(l, Cam(0.0, 0.0), Dev(180.0, 90.0)), CriticalRollPointsCalls()[2..]) == Trace(At(l, Cam(0.0, 24.0), Dev(180.0, 90.0)), CriticalRollPointsLog(l)[1..])
  {
    var calls := CriticalRollPointsCalls()[2..];
    assert calls[0] == Sample(Deg(180.0), 0.0, Deg(30.0)) && calls[1..] == CriticalRollPointsCalls()[3..];
    NormalizeIs(Deg(180.0) - Deg(180.0), 0.0, 0);
    NormalizeIs(Deg(90.0) - Deg(30.0), Deg(60.0), 0);
    assert Apply(At(l, Cam(0.0, 0.0), Dev(180.0, 90.0)), calls[0]) == Step(At(l, Cam(0.0, 60.0), Dev(180.0, 90.0)), Some(Report(l, 0.0, 60.0)));
    assert CriticalRollPointsLog(l)[1..] == [Report(l, 0.0, 60.0)] + CriticalRollPointsLog(l)[2..];
    CriticalRollPointsFrom3(l);
  }

  lemma CriticalRollPointsFrom1(l: Listener)
    ensures Run(At(l, Cam(0.0, 0.0), None), CriticalRollPointsCalls()[1..]) == Trace(At(l, Cam(0.0, 24.0), Dev(180.0, 90.0)), CriticalRollPointsLog(l)[0..])
  {
    var calls := CriticalRollPointsCalls()[1..];
    assert calls[0] == Sample(Deg(180.0), 0.0, Deg(90.0)) && calls[1..] == CriticalRollPointsCalls()[2..];
    NormalizeIs(Deg(0.0) + Deg(180.0), Deg(180.0), 0);
    NormalizeIs(Deg(0.0) + Deg(90.0), Deg(90.0), 0);
    NormalizeIs(Deg(180.0) - Deg(180.0), 0.0, 0);
    NormalizeIs(Deg(90.0) - Deg(90.0), 0.0, 0);
    assert Apply(At(l, Cam(0.0, 0.0), None), calls[0]) == Step(At(l, Cam(0.0, 0.0), Dev(180.0, 90.0)), Some(Report(l, 0.0, 0.0)));
    assert CriticalRollPointsLog(l)[0..] == [Report(l, 0.0, 0.0)] + CriticalRollPointsLog(l)[1..];
    CriticalRollPointsFrom2(l);
  }

  lemma CriticalRollPointsFrom0(l: Listener)
    ensures Run(At(l, None, None), CriticalRollPointsCalls()[0..]) == Trace(At(l, Cam(0.0, 24.0), Dev(180.0, 90.0)), CriticalRollPointsLog(l)[0..])
  {
    var calls := CriticalRollPointsCalls()[0..];
    assert calls[0] == Pan(0.0, 0.0, true) && calls[1..] == CriticalRollPointsCalls()[1..];
    assert Apply(At(l, None, None), calls[0]) == Step(At(l, Cam(0.0, 0.0), None), None);
    CriticalRollPointsFrom1(l);
  }

  lemma CriticalRollPointsTrace(l: Listener)
    ensures Run(SetCallbacks(Initial, Some(l)), CriticalRollPointsCalls()).log == CriticalRollPointsLog(l)
  {
    assert SetCallbacks(Initial, Some(l)) == At(l, None, None);
    assert CriticalRollPointsCalls()[0..] == CriticalRollPointsCalls() && CriticalRollPointsLog(l)[0..] == CriticalRollPointsLog(l);
    CriticalRollPointsFrom0(l);
  }

  // ----- testOutOfScopeCameraDirectionChange -------------------------

  /** The calls `testOutOfScopeCameraDirectionChange` makes after its set-up. */
  function OutOfScopeCameraDirectionChangeCalls(): seq<Event> {
    [
      Pan(0.0, 0.0, true),
      Sample(0.0, 0.0, Deg(30.0)),
      Sample(Deg(90.0), 0.0, 0.0),
      Pan(Deg(-60.0), Deg(30.0), false),
      Sample(Deg(90.0), 0.0, 0.0),
      Pan(Deg(-180.0), Deg(-60.0), false),
      Sample(Deg(90.0), 0.0, 0.0)
    ]
  }

  /** The notifications `testOutOfScopeCameraDirectionChange` expects, in order. */
  function OutOfScopeCameraDirectionChangeLog(l: Listener): seq<Notification> {
    [Report(l, 0.0, 0.0), Report(l, -90.0, 30.0), Report(l, -60.0, 30.0), Report(l, 180.0, -60.0)]
  }

  lemma OutOfScopeCameraDirectionChangeFrom7(l: Listener)
    ensures Run(At(l, Cam(180.0, -60.0), Dev(-90.0, -60.0)), OutOfScopeCameraDirectionChangeCalls()[7..]) == Trace(At(l, Cam(180.0, -60.0), Dev(-90.0, -60.0)), OutOfScopeCameraDirectionChangeLog(l)[4..])
  {
    assert OutOfScopeCameraDirectionChangeCalls()[7..] == [] && OutOfScopeCameraDirectionChangeLog(l)[4..] == [];
  }

  lemma OutOfScopeCameraDirectionChangeFrom6(l: Listener)
    ensures Run(At(l, Cam(-180.0, -60.0), Dev(-90.0, -60.0)), OutOfScopeCameraDirectionChangeCalls()[6..]) == Trace(At(l, Cam(180.0, -60.0), Dev(-90.0, -60.0)), OutOfScopeCameraDirectionChangeLog(l)[3..])
  {
    var calls := OutOfScopeCameraDirectionChangeCalls()[6..];
    assert calls[0] == Sample(Deg(90.0), 0.0, 0.0) && calls[1..] == OutOfScopeCameraDirectionChangeCalls()[7..];
    NormalizeIs(Deg(-90.0) - Deg(90.0), Deg(180.0), -1);
    NormalizeIs(Deg(-60.0) - 0.0, Deg(-60.0), 0);
    assert Apply(At(l, Cam(-180.0, -60.0), Dev(-90.0, -60.0)), calls[0]) == Step(At(l, Cam(180.0, -60.0), Dev(-90.0, -60.0)), Some(Report(l, 180.0, -60.0)));
    assert OutOfScopeCameraDirectionChangeLog(l)[3..] == [Report(l, 180.0, -60.0)] + OutOfScopeCameraDirectionChangeLog(l)[4..];
    OutOfScopeCameraDirectionChangeFrom7(l);
  }

  lemma OutOfScopeCameraDirectionChangeFrom5(l: Listener)
    ensures Run(At(l, Cam(-60.0, 30.0), Dev(30.0, 30.0)), OutOfScopeCameraDirectionChangeCalls()[5..]) == Trace(At(l, Cam(180.0, -60.0), Dev(-90.0, -60.0)), OutOfScopeCameraDirectionChangeLog(l)[3..])
  {
    var calls := OutOfScopeCameraDirectionChangeCalls()[5..];
    assert calls[0] == Pan(Deg(-180.0), Deg(-60.0), false) && calls[1..] == OutOfScopeCameraDirectionChangeCalls()[6..];
    NormalizeIs(Deg(30.0) + (Deg(-180.0) - Deg(-60.0)), Deg(-90.0), 0);
    NormalizeIs(Deg(30.0) + (Deg(-60.0) - Deg(30.0)), Deg(-60.0), 0);
    assert Apply(At(l, Cam(-60.0, 30.0), Dev(30.0, 30.0)), calls[0]) == Step(At(l, Cam(-180.0, -60.0), Dev(-90.0, -60.0)), None);
    OutOfScopeCameraDirectionChangeFrom6(l);
  }

  lemma OutOfScopeCameraDirectionChangeFrom4(l: Listener)
    ensures Run(At(l, Cam(-60.0, 30.0), Dev(30.0, 30.0)), OutOfScopeCameraDirectionChangeCalls()[4..]) == Trace(At(l, Cam(180.0, -60.0), Dev(-90.0, -60.0)), OutOfScopeCameraDirectionChangeLog(l)[2..])
  {
    var calls := OutOfScopeCameraDirectionChangeCalls()[4..];
    assert calls[0] == Sample(Deg(90.0), 0.0, 0.0) && calls[1..] == OutOfScopeCameraDirectionChangeCalls()[5..];
    NormalizeIs(Deg(30.0) - Deg(90.0), Deg(-60.0), 0);
    NormalizeIs(Deg(30.0) - 0.0, Deg(30.0), 0);
    assert Apply(At(l, Cam(-60.0, 30.0), Dev(30.0, 30.0)), calls[0]) == Step(At(l, Cam(-60.0, 30.0), Dev(30.0, 30.0)), Some(Report(l, -60.0, 30.0)));
    assert OutOfScopeCameraDirectionChangeLog(l)[2..] == [Report(l, -60.0, 30.0)] + OutOfScopeCameraDirectionChangeLog(l)[3..];
    OutOfScopeCameraDirectionChangeFrom5(l);
  }

  lemma OutOfScopeCameraDirectionChangeFrom3(l: Listener)
    ensures Run(At(l, Cam(-90.0, 30.0), Dev(0.0, 30.0)), OutOfScopeCameraDirectionChangeCalls()[3..]) == Trace(At(l, Cam(180.0, -60.0), Dev(-90.0, -60.0)), OutOfScopeCameraDirectionChangeLog(l)[2..])
  {
    var calls := OutOfScopeCameraDirectionChangeCalls()[3..];
    assert calls[0] == Pan(Deg(-60.0), Deg(30.0), false) && calls[1..] == OutOfScopeCameraDirectionChangeCalls()[4..];
    NormalizeIs(Deg(0.0) + (Deg(-60.0) - Deg(-90.0)), Deg(30.0), 0);
    NormalizeIs(Deg(30.0) + (Deg(30.0) - Deg(30.0)), Deg(30.0), 0);
    assert Apply(At(l, Cam(-90.0, 30.0), Dev(0.0, 30.0)), calls[0]) == Step(At(l, Cam(-60.0, 30.0), Dev(30.0, 30.0)), None);
    OutOfScopeCameraDirectionChangeFrom4(l);
  }

  lemma OutOfScopeCameraDirectionChangeFrom2(l: Listener)
    ensures Run(At(l, Cam(0.0, 0.0), Dev(0.0, 30.0)), OutOfScopeCameraDirectionChangeCalls()[2..]) == Trace(At(l, Cam(180.0, -60.0), Dev(-90.0, -60.0)), OutOfScopeCameraDirectionChangeLog(l)[1..])
  {
    var calls := OutOfScopeCameraDirectionChangeCalls()[2..];
    assert calls[0] == Sample(Deg(90.0), 0.0, 0.0) && calls[1..] == OutOfScopeCameraDirectionChangeCalls()[3..];
    NormalizeIs(Deg(0.0) - Deg(90.0), Deg(-90.0), 0);
    NormalizeIs(Deg(30.0) - 0.0, Deg(30.0), 0);
    assert Apply(At(l, Cam(0.0, 0.0), Dev(0.0, 30.0)), calls[0]) == Step(At(l, Cam(-90.0, 30.0), Dev(0.0, 30.0)), Some(Report(l, -90.0, 30.0)));
    assert OutOfScopeCameraDirectionChangeLog(l)[1..] == [Report(l, -90.0, 30.0)] + OutOfScopeCameraDirectionChangeLog(l)[2..];
    OutOfScopeCameraDirectionChangeFrom3(l);
  }

  lemma OutOfScopeCameraDirectionChangeFrom1(l: Listener)
    ensures Run(At(l, Cam(0.0, 0.0), None), OutOfScopeCameraDirectionChangeCalls()[1..]) == Trace(At(l, Cam(180.0, -60.0), Dev(-90.0, -60.0)), OutOfScopeCameraDirectionChangeLog(l)[0..])
  {
    var calls := OutOfScopeCameraDirectionChangeCalls()[1..];
    assert calls[0] == Sample(0.0, 0.0, Deg(30.0)) && calls[1..] == OutOfScopeCameraDirectionChangeCalls()[2..];
    NormalizeIs(Deg(0.0) + 0.0, 0.0, 0);
    NormalizeIs(Deg(0.0) + Deg(30.0), Deg(30.0), 0);
    NormalizeIs(Deg(0.0) - 0.0, 0.0, 0);
    NormalizeIs(Deg(30.0) - Deg(30.0), 0.0, 0);
    assert Apply(At(l, Cam(0.0, 0.0), None), calls[0]) == Step(At(l, Cam(0.0, 0.0), Dev(0.0, 30.0)), Some(Report(l, 0.0, 0.0)));
    assert OutOfScopeCameraDirectionChangeLog(l)[0..] == [Report(l, 0.0, 0.0)] + OutOfScopeCameraDirectionChangeLog(l)[1..];
    OutOfScopeCameraDirectionChangeFrom2(l);
  }

  lemma OutOfScopeCameraDirectionChangeFrom0(l: Listener)
    ensures Run(At(l, None, None), OutOfScopeCameraDirectionChangeCalls()[0..]) == Trace(At(l, Cam(180.0, -60.0), Dev(-90.0, -60.0)), OutOfScopeCameraDirectionChangeLog(l)[0..])
  {
    var calls := OutOfScopeCameraDirectionChangeCalls()[0..];
    assert calls[0] == Pan(0.0, 0.0, true) && calls[1..] == OutOfScopeCameraDirectionChangeCalls()[1..];
    assert Apply(At(l, None, None), calls[0]) == Step(At(l, Cam(0.0, 0.0), None), None);
    OutOfScopeCameraDirectionChangeFrom1(l);
  }

  lemma OutOfScopeCameraDirectionChangeTrace(l: Listener)
    ensures Run(SetCallbacks(Initial, Some(l)), OutOfScopeCameraDirectionChangeCalls()).log == OutOfScopeCameraDirectionChangeLog(l)
  {
    assert SetCallbacks(Initial, Some(l)) == At(l, None, None);
    assert OutOfScopeCameraDirectionChangeCalls()[0..] == OutOfScopeCameraDirectionChangeCalls() && OutOfScopeCameraDirectionChangeLog(l)[0..] == OutOfScopeCameraDirectionChangeLog(l);
    OutOfScopeCameraDirectionChangeFrom0(l);
  }

  // ----- testInitialState ---------------------------------------------------

  /** The calls `testInitialState` makes after its set-up: one raw sample as the sensor delivered it. */
  function InitialStateCalls(): seq<Event> {
    [
      Pan(0.0, 0.0, true),
      Pan(0.0, 0.0, false),
      Sample(1.5707963705062866, -0.0, -3.1415927410125732)
    ]
  }

  lemma InitialStateFrom2(l: Listener)
    ensures Run(At(l, Some(Camera(0.0, 0.0)), None), InitialStateCalls()[2..]).log == [Notification(l, 0.0, 0.0)]
  {
    var s := At(l, Some(Camera(0.0, 0.0)), None);
    var calls := InitialStateCalls()[2..];
    assert calls[0] == Sample(1.5707963705062866, -0.0, -3.1415927410125732) && calls[1..] == [];
    NormalizeIs(0.0 + 1.5707963705062866, 1.5707963705062866, 0);
    NormalizeIs(0.0 + -3.1415927410125732, 3.1415925661670128, -1);
    NormalizeIs(1.5707963705062866 - 1.5707963705062866, 0.0, 0);
    NormalizeIs(3.1415925661670128 - -3.1415927410125732, 0.0, 1);
    assert Apply(s, calls[0]).sent == Some(Notification(l, 0.0, 0.0));
  }

  /** The calls of `testInitialState` report the origin once. */
  lemma InitialStateTrace(l: Listener)
    ensures Run(SetCallbacks(Initial, Some(l)), InitialStateCalls()).log == [Notification(l, 0.0, 0.0)]
  {
    var calls := InitialStateCalls();
    assert SetCallbacks(Initial, Some(l)) == At(l, None, None);
    assert calls[0] == Pan(0.0, 0.0, true) && calls[1..][0] == Pan(0.0, 0.0, false);
    assert calls[1..][1..] == calls[2..];
    InitialStateFrom2(l);
  }

  // ----- testNoInteractionOnCameraUpdate ------------------------------------

  /** The pans of `testNoInteractionOnCameraUpdate` never reach the listener. */
  lemma NoInteractionOnCameraUpdateTrace(l: Listener)
    ensures Run(SetCallbacks(Initial, Some(l)), [Pan(0.0, 0.0, true), Pan(0.0, 2.0, false), Pan(-1.0, 2.0, false)]).log == []
  {
    OrientationTraces.PanOnlyTraceIsSilent(SetCallbacks(Initial, Some(l)),
      [Pan(0.0, 0.0, true), Pan(0.0, 2.0, false), Pan(-1.0, 2.0, false)]);
  }
}
