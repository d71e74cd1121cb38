/** The per-frame entry point `trackResults` of `MultiBoxTracker`: whitelist
    the batch, rebuild the tracked objects from it, then bucket it and run
    the alert debounce. */
module MultiBoxTracker {
  import opened Wrappers
  import Seqs
  import opened Geometry
  import opened Whitelist
  import opened Tracking
  import opened Grouping
  import opened Alert

  /** The tracker's fields that take part in a frame, with the static
      `isSpeeching` flag folded in (one tracker instance is modelled). */
  datatype TrackerState = TrackerState(
    frameWidth: int,
    frameHeight: int,
    sensorOrientation: int,
    screenRects: seq<ScreenRect>,
    trackedObjects: seq<TrackedRecognition>,
    alert: AlertState)

  /** A finished `trackResults` call: the new state, the cue the class rules
      reached if they ran, and the exception if one escaped. */
  datatype Step = Step(tracker: TrackerState, cue: Option<Cue>, fault: Option<Fault>)

  /** `setFrameConfiguration`. */
  function SetFrameConfiguration(t: TrackerState, width: int, height: int, sensorOrientation: int): TrackerState
  {
    t.(frameWidth := width, frameHeight := height, sensorOrientation := sensorOrientation)
  }

  /** `trackResults`: `toScreen` stands for the frame-to-canvas matrix last
      computed by `draw`. An exception from `processDetectedObject` leaves
      the lists already rebuilt by `processResults` in place. */
  function TrackResults(t: TrackerState, results: seq<Recognition>, toScreen: Rect -> Rect): (r: Step)
    ensures r.tracker.frameWidth == t.frameWidth && r.tracker.frameHeight == t.frameHeight
    ensures r.tracker.sensorOrientation == t.sensorOrientation
    ensures |r.tracker.screenRects| == |Seqs.Filter(IsLocated, Whitelisted(results))|
    ensures forall x :: x in Whitelisted(results) && x.location.Some? ==>
      ScreenRect(x.confidence, toScreen(x.location.value)) in r.tracker.screenRects
    ensures var located := Seqs.Filter(IsLocated, Whitelisted(results));
            forall i :: 0 <= i < |r.tracker.screenRects| ==>
              r.tracker.screenRects[i] == ScreenRect(located[i].confidence, toScreen(located[i].location.value))
    ensures |r.tracker.trackedObjects| == Min(|Colors|, |Seqs.Filter(IsTrackable, Whitelisted(results))|)
    ensures forall i :: 0 <= i < |r.tracker.trackedObjects| ==> r.tracker.trackedObjects[i].color == Colors[i]
    ensures var trackable := Seqs.Filter(IsTrackable, Whitelisted(results));
            forall i :: 0 <= i < |r.tracker.trackedObjects| ==>
              && i < |trackable|
              && r.tracker.trackedObjects[i].title == trackable[i].title
              && r.tracker.trackedObjects[i].detectionConfidence == trackable[i].confidence
              && Some(r.tracker.trackedObjects[i].location) == trackable[i].location
    ensures |r.tracker.trackedObjects| <= |Colors|
    ensures forall o :: o in r.tracker.trackedObjects ==> o.title in ObjectList && !IsDegenerate(o.location)
    ensures Whitelisted(results) == [] ==> r.tracker.alert == t.alert && r.cue.None? && r.fault.None?
    ensures t.alert.speaking ==> r.tracker.alert == t.alert && r.cue.None?
    ensures r.fault.Some? ==> r.tracker.alert == t.alert && r.cue.None?
    ensures r.fault.None? && Whitelisted(results) != [] && !t.alert.speaking ==>
      r.tracker.alert == AlertState(true, t.alert.playbacks + 1) && r.cue.Some?
  {
    var kept := Whitelisted(results);
    var processed := ProcessResults(kept, toScreen);
    TrackedArePrefix(kept, toScreen);
    var rebuilt := t.(screenRects := processed.screenRects, trackedObjects := processed.trackedObjects);
    match DetectObjects(t.alert, kept, t.frameWidth, t.frameHeight)
    case Failure(e) => Step(rebuilt, None, Some(e))
    case Success(reaction) => Step(rebuilt.(alert := reaction.state), reaction.cue, None)
  }

  /** The configured frame size is the one bucketing uses: after
      `setFrameConfiguration`, a frame raises exactly when some whitelisted
      recognition cannot be bucketed in a frame of that size, and the
      tracked list does not depend on the configuration at all. */
  lemma ConfigurationDrivesBucketing(t: TrackerState, w: int, h: int, o: int,
                                     results: seq<Recognition>, toScreen: Rect -> Rect)
    ensures var r := TrackResults(SetFrameConfiguration(t, w, h, o), results, toScreen);
            r.fault.None? <==> Whitelisted(results) == [] || ObserveAll(Whitelisted(results), w, h).Success?
    ensures TrackResults(SetFrameConfiguration(t, w, h, o), results, toScreen).tracker.trackedObjects
         == TrackResults(t, results, toScreen).tracker.trackedObjects
  {
    var kept := Whitelisted(results);
    if kept != [] && ObserveAll(kept, w, h).Failure? {
      var k :| FaultsFirstAt(kept, w, h, ObserveAll(kept, w, h).error, k);
    }
  }

  /** Labels outside the whitelist reach neither tracking nor bucketing:
      removing them from the batch beforehand changes nothing. */
  lemma WhitelistGate(t: TrackerState, results: seq<Recognition>, toScreen: Rect -> Rect)
    ensures TrackResults(t, results, toScreen) == TrackResults(t, Whitelisted(results), toScreen)
  {
    WhitelistedIdempotent(results);
  }

  /** The lists are replaced, never merged: what the previous frame left
      behind has no influence on them. */
  lemma ListsReplaced(t1: TrackerState, t2: TrackerState, results: seq<Recognition>, toScreen: Rect -> Rect)
    ensures TrackResults(t1, results, toScreen).tracker.trackedObjects
         == TrackResults(t2, results, toScreen).tracker.trackedObjects
    ensures TrackResults(t1, results, toScreen).tracker.screenRects
         == TrackResults(t2, results, toScreen).tracker.screenRects
  {
  }

  /** A frame of 600 by 500 holding one pedestrian in the lower-middle
      region with an area of 35000 reaches the nearby-pedestrian rule and
      starts the sound. */
  lemma LonePedestrianScenario(playbacks: nat, toScreen: Rect -> Rect)
    ensures var t := TrackerState(600, 500, 90, [], [], AlertState(false, playbacks));
            var person := Recognition("person", 0.9, Some(Rect(420.0, 180.0, 595.0, 380.0)));
            var r := TrackResults(t, [person], toScreen);
            r.fault.None? && r.cue == Some(NearbyPedestrian) && r.tracker.alert == AlertState(true, playbacks + 1)
  {
    var rect := Rect(420.0, 180.0, 595.0, 380.0);
    var person := Recognition("person", 0.9, Some(rect));
    assert Whitelisted([person]) == [person];
    assert rect.CenterX() == 507.5 && rect.CenterY() == 280.0 && rect.Area() == 35000.0;
    assert Grid.CellSize(600) == 200 && Grid.CellSize(500) == 166;
    assert Grid.CellIndex(507.5, 200) == Some(2);
    assert Grid.CellIndex(280.0, 166) == Some(1);
    assert Grid.Position(507.5, 280.0, 600, 500) == Some("MB");
    var obs := [Observation("person", Entry("MB", 35000.0))];
    assert Observe(person, 600, 500) == Success(obs[0]);
    assert [person][1..] == [];
    assert ObserveAll([], 600, 500) == Success([]);
    assert [obs[0]] + [] == obs;
    assert ObserveAll([person], 600, 500) == Success(obs);
    assert Titles(obs) == {"person"};
    assert Entries(obs)[0] == Entry("MB", 35000.0);
    ClassifyPerson(obs);
  }
}
