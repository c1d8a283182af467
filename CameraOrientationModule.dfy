/**
 * The module itself: an object with three nullable fields that its methods
 * reassign, and a ghost log of every `onCameraDirectionChanged` call it makes.
 * Each method is proved against the matching function of `OrientationModel`.
 */
module CameraOrientation {
  import opened Angles
  import opened OrientationModel

  class CameraOrientationModule {
    var callbacks: Option<Listener>
    var camera: Option<Camera>
    var center: Option<Device>
    /** Every notification sent so far, oldest first. */
    ghost var log: seq<Notification>

    /** The fields as a value of the state machine. */
    function Snapshot(): ModuleState
      reads this
    {
      ModuleState(callbacks, camera, center)
    }

    /** Every direction ever reported lies in (-PI, PI]. */
    ghost predicate Valid()
      reads this
    {
      forall i :: 0 <= i < |log| ==> InRange(log[i].lng) && InRange(log[i].lat)
    }

    constructor ()
      ensures Valid()
      ensures Snapshot() == Initial && log == []
    {
      callbacks, camera, center := None, None, None;
      log := [];
    }

    method SetCallbacks(callbacks: Option<Listener>)
      requires Valid()
      modifies this
      ensures Valid()
      ensures Snapshot() == OrientationModel.SetCallbacks(old(Snapshot()), callbacks)
      ensures this.callbacks == callbacks && camera == old(camera) && center == old(center)
      ensures log == old(log)
    {
      if this.callbacks != callbacks {
        this.callbacks := callbacks;
      }
    }

    method UpdateCameraPosition(longitude: real, latitude: real, isCentered: bool)
      requires Valid()
      modifies this
      ensures Valid()
      ensures Snapshot() == OrientationModel.UpdateCameraPosition(old(Snapshot()), longitude, latitude, isCentered)
      ensures camera == Some(Camera(longitude, latitude)) && callbacks == old(callbacks)
      ensures isCentered ==> center == None
      ensures !isCentered && old(center).Some? && old(camera).Some? ==>
        var c, k := old(center).value, old(camera).value;
        center == Some(Device(Normalize(c.azim + (longitude - k.lng)), c.pitch, Normalize(c.roll + (latitude - k.lat))))
      ensures log == old(log)
    {
      if isCentered {
        center := None;
      }
      // a pan while anchored moves the anchor with the camera
      if center.Some? && camera.Some? {
        var longDiff := longitude - camera.value.lng;
        var latDiff := latitude - camera.value.lat;
        var azim := AsPiMinusPiRange(center.value.azim + longDiff);
        var roll := AsPiMinusPiRange(center.value.roll + latDiff);
        center := Some(Device(azim, center.value.pitch, roll));
      }
      camera := Some(Camera(longitude, latitude));
    }

    method UpdateDeviceOrientation(azimuth: real, pitch: real, roll: real)
      requires Valid()
      modifies this
      ensures Valid()
      ensures
        var st := OrientationModel.UpdateDeviceOrientation(old(Snapshot()), azimuth, pitch, roll);
        Snapshot() == st.next &&
        log == old(log) + (if st.sent.Some? then [st.sent.value] else [])
      ensures callbacks == old(callbacks) && center.Some?
      ensures old(center).Some? ==> center == old(center)
      ensures |log| == |old(log)| + (if old(callbacks).Some? && old(camera).Some? then 1 else 0)
    {
      if center.None? {
        if camera.None? {
          center := Some(Device(azimuth, pitch, roll));
        } else {
          var centerAzim := AsPiMinusPiRange(camera.value.lng + azimuth);
          var centerRoll := AsPiMinusPiRange(camera.value.lat + roll);
          center := Some(Device(centerAzim, pitch, centerRoll));
        }
      }
      if callbacks.Some? && camera.Some? {
        var longitude := AsPiMinusPiRange(center.value.azim - azimuth);
        var latitude := AsPiMinusPiRange(center.value.roll - roll);
        camera := Some(Camera(longitude, latitude));
        log := log + [Notification(callbacks.value, camera.value.lng, camera.value.lat)];
      }
    }
  }
}
