/**
 * The state machine of `CameraOrientationModule`, as functions on values.
 *
 * The module reconciles manual panning (`UpdateCameraPosition`) with device
 * orientation samples (`UpdateDeviceOrientation`) into one camera direction,
 * which it reports to at most one listener. Its state is three optional
 * slots; the four set/unset combinations of `camera` and `center` decide
 * what a call does.
 */
module OrientationModel {
  import opened Angles

  datatype Option<T> = None | Some(value: T)

  /** Where the viewer looks: a longitude and a latitude, in radians. */
  datatype Camera = Camera(lng: real, lat: real)

  /** A device orientation sample (azimuth, pitch, roll), in radians. */
  datatype Device = Device(azim: real, pitch: real, roll: real)

  /** The identity of a registered `VideoVM.Callbacks` listener. */
  datatype Listener = Listener(id: nat)

  /** One call of `onCameraDirectionChanged(lng, lat)` on `listener`. */
  datatype Notification = Notification(listener: Listener, lng: real, lat: real)

  /** The three nullable fields of the module. */
  datatype ModuleState = ModuleState(callbacks: Option<Listener>, camera: Option<Camera>, center: Option<Device>)

  /** What a device sample leaves behind: the new state and the notification it sent, if any. */
  datatype Step = Step(next: ModuleState, sent: Option<Notification>)

  /** A freshly constructed module: every field is null. */
  const Initial: ModuleState := ModuleState(None, None, None)

  /** `setCallbacks`: the listener is replaced only when it differs, which is the same as always replacing it. */
  ghost function SetCallbacks(s: ModuleState, callbacks: Option<Listener>): (t: ModuleState)
    ensures t.callbacks == callbacks
    ensures t.camera == s.camera && t.center == s.center
  {
    if s.callbacks != callbacks then s.(callbacks := callbacks) else s
  }

  /**
   * `updateCameraPosition`: a centering pan discards the anchor; a pan while
   * anchored moves the anchor's azimuth and roll by the pan's delta from the
   * previous camera direction; the new camera direction is stored as given.
   */
  ghost function UpdateCameraPosition(s: ModuleState, longitude: real, latitude: real, isCentered: bool): (t: ModuleState)
    ensures t.camera == Some(Camera(longitude, latitude))
    ensures t.callbacks == s.callbacks
    ensures isCentered ==> t.center == None
    ensures t.center.Some? ==> s.center.Some? && t.center.value.pitch == s.center.value.pitch
  {
    var center := if isCentered then None else s.center;
    var center' :=
      if center.Some? && s.camera.Some? then
        var longDiff := longitude - s.camera.value.lng;
        var latDiff := latitude - s.camera.value.lat;
        Some(Device(Normalize(center.value.azim + longDiff), center.value.pitch,
                    Normalize(center.value.roll + latDiff)))
      else center;
    ModuleState(s.callbacks, Some(Camera(longitude, latitude)), center')
  }

  /** The anchor in force while a device sample is processed. */
  ghost function Anchor(s: ModuleState, azimuth: real, pitch: real, roll: real): (d: Device)
    ensures s.center.Some? ==> d == s.center.value
    ensures s.center.None? ==> d.pitch == pitch
  {
    match s.center
    case Some(c) => c
    case None =>
      match s.camera
      case None => Device(azimuth, pitch, roll)
      case Some(cam) => Device(Normalize(cam.lng + azimuth), pitch, Normalize(cam.lat + roll))
  }

  /**
   * `updateDeviceOrientation`: anchor if there is no anchor yet, then, when a
   * listener and a camera direction are both present, move the camera to the
   * anchor minus the sample and notify the listener of it.
   */
  ghost function UpdateDeviceOrientation(s: ModuleState, azimuth: real, pitch: real, roll: real): (st: Step)
    ensures st.next.callbacks == s.callbacks
    ensures st.next.center.Some?
    ensures s.center.Some? ==> st.next.center == s.center
    ensures s.camera.Some? ==> st.next.camera.Some?
    ensures st.sent.Some? <==> s.callbacks.Some? && s.camera.Some?
    ensures st.sent.None? ==> st.next.camera == s.camera
    ensures st.sent.Some? ==>
      var n := st.sent.value;
      n.listener == s.callbacks.value &&
      st.next.camera == Some(Camera(n.lng, n.lat)) &&
      InRange(n.lng) && InRange(n.lat)
  {
    var center := Anchor(s, azimuth, pitch, roll);
    if s.callbacks.Some? && s.camera.Some? then
      var longitude := Normalize(center.azim - azimuth);
      var latitude := Normalize(center.roll - roll);
      Step(ModuleState(s.callbacks, Some(Camera(longitude, latitude)), Some(center)),
           Some(Notification(s.callbacks.value, longitude, latitude)))
    else
      Step(ModuleState(s.callbacks, s.camera, Some(center)), None)
  }

  /** A call made on the module. */
  datatype Event =
    | SetListener(callbacks: Option<Listener>)
    | Pan(longitude: real, latitude: real, isCentered: bool)
    | Sample(azimuth: real, pitch: real, roll: real)

  /** One call applied to a state. */
  ghost function Apply(s: ModuleState, e: Event): Step {
    match e
    case SetListener(l) => Step(SetCallbacks(s, l), None)
    case Pan(lng, lat, c) => Step(UpdateCameraPosition(s, lng, lat, c), None)
    case Sample(a, p, r) => UpdateDeviceOrientation(s, a, p, r)
  }

  /** The result of a sequence of calls: the final state and every notification sent, in order. */
  datatype Trace = Trace(last: ModuleState, log: seq<Notification>)

  ghost function Run(s: ModuleState, events: seq<Event>): Trace
    decreases |events|
  {
    if events == [] then Trace(s, [])
    else
      var st := Apply(s, events[0]);
      var rest := Run(st.next, events[1..]);
      Trace(rest.last, (if st.sent.Some? then [st.sent.value] else []) + rest.log)
  }

  ghost function CountSamples(events: seq<Event>): nat
    decreases |events|
  {
    if events == [] then 0 else (if events[0].Sample? then 1 else 0) + CountSamples(events[1..])
  }
}
