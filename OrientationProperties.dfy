/**
 * What the module promises, stated over the state machine of `OrientationModel`:
 * single calls, compositions of calls, and whole call sequences.
 */
module OrientationProperties {
  import opened Angles
  import opened OrientationModel

  // ----- single calls -----------------------------------------------------

  /** A pan while anchored moves the anchor's azimuth and roll by the pan's delta and keeps its pitch. */
  lemma PanMovesAnchor(s: ModuleState, longitude: real, latitude: real)
    requires s.center.Some? && s.camera.Some?
    ensures
      var c, k := s.center.value, s.camera.value;
      UpdateCameraPosition(s, longitude, latitude, false).center ==
        Some(Device(Normalize(c.azim + (longitude - k.lng)), c.pitch, Normalize(c.roll + (latitude - k.lat))))
  {
  }

  /** Without both an anchor and a camera direction, a non-centering pan leaves the anchor alone. */
  lemma PanWithoutAnchorKeepsCenter(s: ModuleState, longitude: real, latitude: real)
    requires s.center.None? || s.camera.None?
    ensures UpdateCameraPosition(s, longitude, latitude, false).center == s.center
  {
  }

  /** The very first sample, before any pan, becomes the anchor verbatim and is not reported. */
  lemma FirstSampleAnchorsVerbatim(s: ModuleState, azimuth: real, pitch: real, roll: real)
    requires s.center.None? && s.camera.None?
    ensures UpdateDeviceOrientation(s, azimuth, pitch, roll) ==
      Step(s.(center := Some(Device(azimuth, pitch, roll))), None)
  {
  }

  /** A reported direction is the anchor minus the sample, each component normalized. */
  lemma SampleReportsAnchorMinusSample(s: ModuleState, azimuth: real, pitch: real, roll: real)
    requires s.callbacks.Some? && s.camera.Some?
    ensures
      var c := Anchor(s, azimuth, pitch, roll);
      UpdateDeviceOrientation(s, azimuth, pitch, roll).sent ==
        Some(Notification(s.callbacks.value, Normalize(c.azim - azimuth), Normalize(c.roll - roll)))
  {
  }

  /**
   * Re-anchoring: with a camera direction but no anchor, the anchor is chosen so
   * that the very sample that set it reports the camera direction back, normalized.
   */
  lemma ReanchorReproducesCamera(s: ModuleState, azimuth: real, pitch: real, roll: real)
    requires s.center.None? && s.camera.Some? && s.callbacks.Some?
    ensures
      var k := s.camera.value;
      UpdateDeviceOrientation(s, azimuth, pitch, roll).sent ==
        Some(Notification(s.callbacks.value, Normalize(k.lng), Normalize(k.lat)))
  {
    var k := s.camera.value;
    NormalizeInnerAdd(k.lng + azimuth, -azimuth);
    assert k.lng + azimuth + -azimuth == k.lng;
    NormalizeInnerAdd(k.lat + roll, -roll);
    assert k.lat + roll + -roll == k.lat;
  }

  /**
   * Tracking device movement: after a sample (azimuth, roll) re-anchors on the
   * camera direction, a later sample (azimuth2, roll2) reports the camera
   * direction moved by the device's change, (azimuth - azimuth2, roll - roll2).
   */
  lemma LaterSampleReportsDeviceDelta(s: ModuleState, azimuth: real, pitch: real, roll: real,
                                      azimuth2: real, pitch2: real, roll2: real)
    requires s.center.None? && s.camera.Some? && s.callbacks.Some?
    ensures
      var k := s.camera.value;
      var t := UpdateDeviceOrientation(s, azimuth, pitch, roll).next;
      UpdateDeviceOrientation(t, azimuth2, pitch2, roll2).sent ==
        Some(Notification(s.callbacks.value, Normalize(k.lng + azimuth - azimuth2), Normalize(k.lat + roll - roll2)))
  {
    var k := s.camera.value;
    NormalizeOuterSub(k.lng + azimuth, azimuth2);
    NormalizeOuterSub(k.lat + roll, roll2);
  }

  /** Anchors the module computes, by re-anchoring or by shifting on a pan, lie in (-PI, PI]. */
  lemma ComputedAnchorsInRange(s: ModuleState, longitude: real, latitude: real, azimuth: real, pitch: real, roll: real)
    ensures s.center.None? && s.camera.Some? ==>
      var c := UpdateDeviceOrientation(s, azimuth, pitch, roll).next.center.value;
      InRange(c.azim) && InRange(c.roll)
    ensures s.center.Some? && s.camera.Some? ==>
      var c := UpdateCameraPosition(s, longitude, latitude, false).center.value;
      InRange(c.azim) && InRange(c.roll)
  {
  }

  /** Centering at (lng, lat) and then any sample reports (lng, lat), normalized, whatever the old anchor was. */
  lemma RecenterThenSample(s: ModuleState, longitude: real, latitude: real, azimuth: real, pitch: real, roll: real)
    requires s.callbacks.Some?
    ensures
      var st := UpdateDeviceOrientation(UpdateCameraPosition(s, longitude, latitude, true), azimuth, pitch, roll);
      st.sent == Some(Notification(s.callbacks.value, Normalize(longitude), Normalize(latitude))) &&
      st.next == UpdateDeviceOrientation(UpdateCameraPosition(s.(center := None), longitude, latitude, true), azimuth, pitch, roll).next
  {
    ReanchorReproducesCamera(UpdateCameraPosition(s, longitude, latitude, true), azimuth, pitch, roll);
  }

  /** Centering at the origin and then any sample reports the origin. */
  lemma CenterAtOriginThenSampleReportsOrigin(s: ModuleState, azimuth: real, pitch: real, roll: real)
    requires s.callbacks.Some?
    ensures UpdateDeviceOrientation(UpdateCameraPosition(s, 0.0, 0.0, true), azimuth, pitch, roll).sent ==
      Some(Notification(s.callbacks.value, 0.0, 0.0))
  {
    RecenterThenSample(s, 0.0, 0.0, azimuth, pitch, roll);
    NormalizeFixesInRange(0.0);
  }

  // ----- pans and samples together -----------------------------------------

  /**
   * A non-centering pan by (dx, dy) from the current camera direction shifts
   * every later report of the same sample by (dx, dy), modulo a turn.
   */
  lemma PanShiftsReport(s: ModuleState, longitude: real, latitude: real, azimuth: real, pitch: real, roll: real)
    requires s.center.Some? && s.camera.Some? && s.callbacks.Some?
    ensures
      var before := UpdateDeviceOrientation(s, azimuth, pitch, roll).sent.value;
      var after := UpdateDeviceOrientation(UpdateCameraPosition(s, longitude, latitude, false), azimuth, pitch, roll).sent.value;
      var k := s.camera.value;
      after.lng == Normalize(before.lng + (longitude - k.lng)) &&
      after.lat == Normalize(before.lat + (latitude - k.lat))
  {
    var c, k := s.center.value, s.camera.value;
    var before := UpdateDeviceOrientation(s, azimuth, pitch, roll).sent.value;
    assert before.lng == Normalize(c.azim - azimuth) && before.lat == Normalize(c.roll - roll);
    var t := UpdateCameraPosition(s, longitude, latitude, false);
    var azim, roll' := c.azim + (longitude - k.lng), c.roll + (latitude - k.lat);
    assert t.center == Some(Device(Normalize(azim), c.pitch, Normalize(roll')));
    var after := UpdateDeviceOrientation(t, azimuth, pitch, roll).sent.value;
    assert after.lng == Normalize(Normalize(azim) - azimuth) && after.lat == Normalize(Normalize(roll') - roll);
    ShiftUnderNormalize(c.azim, azimuth, longitude - k.lng);
    ShiftUnderNormalize(c.roll, roll, latitude - k.lat);
  }

  /** The arithmetic behind `PanShiftsReport`: N(N(a + d) - x) == N(N(a - x) + d). */
  lemma ShiftUnderNormalize(a: real, x: real, d: real)
    ensures Normalize(Normalize(a + d) - x) == Normalize(Normalize(a - x) + d)
  {
    NormalizeOuterSub(a + d, x);
    NormalizeInnerAdd(a - x, d);
    assert a + d - x == a - x + d;
  }

  /**
   * Pan-while-anchored composition: after a sample S has been reported, a
   * non-centering pan to (lng, lat) followed by S again reports (lng, lat), normalized.
   */
  lemma PanThenSameSampleReportsPan(s: ModuleState, longitude: real, latitude: real, azimuth: real, pitch: real, roll: real)
    requires s.callbacks.Some? && s.camera.Some?
    ensures
      var t := UpdateDeviceOrientation(s, azimuth, pitch, roll).next;
      UpdateDeviceOrientation(UpdateCameraPosition(t, longitude, latitude, false), azimuth, pitch, roll).sent ==
        Some(Notification(s.callbacks.value, Normalize(longitude), Normalize(latitude)))
  {
    var st := UpdateDeviceOrientation(s, azimuth, pitch, roll);
    var t := st.next;
    var k := t.camera.value;
    assert st.sent.value.lng == k.lng && st.sent.value.lat == k.lat;
    assert UpdateDeviceOrientation(t, azimuth, pitch, roll).sent == st.sent;
    PanShiftsReport(t, longitude, latitude, azimuth, pitch, roll);
    ReturnToPan(k.lng, longitude);
    ReturnToPan(k.lat, latitude);
  }

  /** The arithmetic behind `PanThenSameSampleReportsPan`: a normalized k shifted by (x - k) normalizes to N(x). */
  lemma ReturnToPan(k: real, x: real)
    ensures Normalize(Normalize(k) + (x - Normalize(k))) == Normalize(x)
  {
    assert Normalize(k) + (x - Normalize(k)) == x;
  }

  // ----- the listener -------------------------------------------------------

  /** Registering a listener twice is registering it once, and registering the current one changes nothing. */
  lemma SetCallbacksIdempotent(s: ModuleState, callbacks: Option<Listener>)
    ensures SetCallbacks(SetCallbacks(s, callbacks), callbacks) == SetCallbacks(s, callbacks)
    ensures SetCallbacks(s, s.callbacks) == s
  {
  }
}
