/**
 * Properties of whole call sequences: what holds after any sequence of
 * listener changes, pans and device samples.
 */
module OrientationTraces {
  import opened Angles
  import opened OrientationModel

  /** No sample in the sequence: pans and listener changes only. */
  predicate NoSamples(events: seq<Event>) {
    forall i :: 0 <= i < |events| ==> !events[i].Sample?
  }

  /** No centering pan in the sequence. */
  predicate NoCentering(events: seq<Event>) {
    forall i :: 0 <= i < |events| ==> !(events[i].Pan? && events[i].isCentered)
  }

  /** Calls that never sample the device never notify the listener. */
  lemma {:induction false} PanOnlyTraceIsSilent(s: ModuleState, events: seq<Event>)
    requires NoSamples(events)
    ensures Run(s, events).log == []
    decreases |events|
  {
    if events != [] {
      assert NoSamples(events[1..]) by {
        forall i | 0 <= i < |events[1..]| ensures !events[1..][i].Sample? {
          assert events[1..][i] == events[i + 1];
        }
      }
      PanOnlyTraceIsSilent(Apply(s, events[0]).next, events[1..]);
    }
  }

  /** The listener is notified at most once per device sample, however often it was registered. */
  lemma {:induction false} AtMostOneNotificationPerSample(s: ModuleState, events: seq<Event>)
    ensures |Run(s, events).log| <= CountSamples(events)
    decreases |events|
  {
    if events != [] {
      AtMostOneNotificationPerSample(Apply(s, events[0]).next, events[1..]);
    }
  }

  /** Every reported direction lies in (-PI, PI]. */
  lemma {:induction false} ReportsInRange(s: ModuleState, events: seq<Event>)
    ensures forall i :: 0 <= i < |Run(s, events).log| ==>
      InRange(Run(s, events).log[i].lng) && InRange(Run(s, events).log[i].lat)
    decreases |events|
  {
    if events != [] {
      ReportsInRange(Apply(s, events[0]).next, events[1..]);
    }
  }

  /** Once a camera direction is known it is never cleared, only overwritten. */
  lemma {:induction false} CameraNeverCleared(s: ModuleState, events: seq<Event>)
    requires s.camera.Some?
    ensures Run(s, events).last.camera.Some?
    decreases |events|
  {
    if events != [] {
      CameraNeverCleared(Apply(s, events[0]).next, events[1..]);
    }
  }

  /** Once anchored, only a centering pan clears the anchor. */
  lemma {:induction false} AnchorKeptWithoutCentering(s: ModuleState, events: seq<Event>)
    requires s.center.Some?
    requires NoCentering(events)
    ensures Run(s, events).last.center.Some?
    decreases |events|
  {
    if events != [] {
      assert !(events[0].Pan? && events[0].isCentered);
      assert NoCentering(events[1..]) by {
        forall i | 0 <= i < |events[1..]| ensures !(events[1..][i].Pan? && events[1..][i].isCentered) {
          assert events[1..][i] == events[i + 1];
        }
      }
      AnchorKeptWithoutCentering(Apply(s, events[0]).next, events[1..]);
    }
  }

  /** Samples alone never move an existing anchor. */
  lemma {:induction false} SamplesKeepAnchor(s: ModuleState, events: seq<Event>)
    requires s.center.Some?
    requires forall i :: 0 <= i < |events| ==> events[i].Sample?
    ensures Run(s, events).last.center == s.center
    decreases |events|
  {
    if events != [] {
      assert forall i :: 0 <= i < |events[1..]| ==> events[1..][i] == events[i + 1];
      SamplesKeepAnchor(Apply(s, events[0]).next, events[1..]);
    }
  }

  /** Registering the same listener a second time does not duplicate the next report. */
  lemma RegisteringTwiceReportsOnce(s: ModuleState, l: Listener, azimuth: real, pitch: real, roll: real)
    requires s.camera.Some?
    ensures
      var twice := Run(s, [SetListener(Some(l)), SetListener(Some(l)), Sample(azimuth, pitch, roll)]);
      var once := Run(s, [SetListener(Some(l)), Sample(azimuth, pitch, roll)]);
      twice == once && |once.log| == 1 && once.log[0].listener == l
  {
    var t := SetCallbacks(s, Some(l));
    assert SetCallbacks(t, Some(l)) == t;
    var st := UpdateDeviceOrientation(t, azimuth, pitch, roll);
    assert Run(st.next, []) == Trace(st.next, []);
    assert [SetListener(Some(l)), SetListener(Some(l)), Sample(azimuth, pitch, roll)][1..] ==
      [SetListener(Some(l)), Sample(azimuth, pitch, roll)];
    assert [SetListener(Some(l)), Sample(azimuth, pitch, roll)][1..] == [Sample(azimuth, pitch, roll)];
    assert [Sample(azimuth, pitch, roll)][1..] == [];
  }
}
