/** `processResults`: the debug list of screen rectangles and the coloured,
    capped list of tracked objects rebuilt from one frame's detections. */
module Tracking {
  import opened Wrappers
  import opened Geometry
  import Seqs

  /** Rectangles narrower or shorter than this, in frame units, are not tracked. */
  const MinSize: real := 16.0

  /** The palette, as 32-bit ARGB values read as unsigned numbers: the seven
      named `Color` constants followed by the eight parsed hex colours. */
  const Colors: seq<nat> := [
    0xFF0000FF, // BLUE
    0xFFFF0000, // RED
    0xFF00FF00, // GREEN
    0xFFFFFF00, // YELLOW
    0xFF00FFFF, // CYAN
    0xFFFF00FF, // MAGENTA
    0xFFFFFFFF, // WHITE
    0xFF55FF55,
    0xFFFFA500,
    0xFFFF8888,
    0xFFAAAAFF,
    0xFFFFFFAA,
    0xFF55AAAA,
    0xFFAA33AA,
    0xFF0D0068
  ]

  /** A confidence paired with the screen-space image of a frame rectangle. */
  datatype ScreenRect = ScreenRect(confidence: real, rect: Rect)

  /** A recognition chosen for display, with the palette colour it was given. */
  datatype TrackedRecognition =
    TrackedRecognition(location: Rect, detectionConfidence: real, color: nat, title: string)

  /** One entry of `rectsToTrack`: a located recognition big enough to track. */
  datatype Candidate = Candidate(confidence: real, location: Rect, title: string)

  /** What `processResults` leaves behind: the two lists it rebuilds. */
  datatype Processed = Processed(screenRects: seq<ScreenRect>, trackedObjects: seq<TrackedRecognition>)

  predicate IsDegenerate(rect: Rect) {
    rect.Width() < MinSize || rect.Height() < MinSize
  }

  predicate IsTrackable(r: Recognition) {
    r.location.Some? && !IsDegenerate(r.location.value)
  }

  function Min(a: int, b: int): int { if a <= b then a else b }

  /** The screen rectangles of the located recognitions, one per located
      recognition and in input order; `toScreen` is the frame-to-canvas
      mapping, taken as given. */
  function ScreenRectsOf(results: seq<Recognition>, toScreen: Rect -> Rect): (rects: seq<ScreenRect>)
    ensures |rects| == |Seqs.Filter(IsLocated, results)|
    ensures forall r :: r in results && r.location.Some? ==>
      ScreenRect(r.confidence, toScreen(r.location.value)) in rects
  {
    var located := Seqs.Filter(IsLocated, results);
    var rects := seq(|located|, i requires 0 <= i < |located| =>
      ScreenRect(located[i].confidence, toScreen(located[i].location.value)));
    assert forall r :: r in results && r.location.Some? ==>
      ScreenRect(r.confidence, toScreen(r.location.value)) in rects by {
      forall r | r in results && r.location.Some?
        ensures ScreenRect(r.confidence, toScreen(r.location.value)) in rects
      {
        assert r in located;
        var i :| 0 <= i < |located| && located[i] == r;
        assert rects[i] == ScreenRect(r.confidence, toScreen(r.location.value));
      }
    }
    rects
  }

  /** The debug list keeps input order: two consecutive stretches of a
      batch contribute their screen rectangles one after the other. */
  lemma ScreenRectsAppend(a: seq<Recognition>, b: seq<Recognition>, toScreen: Rect -> Rect)
    ensures ScreenRectsOf(a + b, toScreen) == ScreenRectsOf(a, toScreen) + ScreenRectsOf(b, toScreen)
  {
    Seqs.FilterAppend(IsLocated, a, b);
  }

  /** `rectsToTrack`: the located, non-degenerate recognitions, in input order. */
  function RectsToTrack(results: seq<Recognition>): (cands: seq<Candidate>)
    ensures |cands| == |Seqs.Filter(IsTrackable, results)|
    ensures forall c :: c in cands ==> !IsDegenerate(c.location)
    ensures forall c :: c in cands ==> exists r :: r in results && r.title == c.title
  {
    var kept := Seqs.Filter(IsTrackable, results);
    seq(|kept|, i requires 0 <= i < |kept| =>
      Candidate(kept[i].confidence, kept[i].location.value, kept[i].title))
  }

  /** The second loop of `processResults`: the candidate at position `n` of
      the tracked list takes `Colors[n]`, and the loop breaks as soon as the
      list holds as many objects as the palette has colours. */
  function TrackFrom(cands: seq<Candidate>, n: nat): (tracked: seq<TrackedRecognition>)
    requires n < |Colors|
    ensures |tracked| == Min(|cands|, |Colors| - n)
    ensures forall i :: 0 <= i < |tracked| ==>
      tracked[i] == TrackedRecognition(cands[i].location, cands[i].confidence, Colors[n + i], cands[i].title)
    decreases |cands|
  {
    if cands == [] then []
    else
      var t := TrackedRecognition(cands[0].location, cands[0].confidence, Colors[n], cands[0].title);
      if n + 1 >= |Colors| then [t]
      else [t] + TrackFrom(cands[1..], n + 1)
  }

  /** `processResults`: both lists are rebuilt from this frame alone. */
  function ProcessResults(results: seq<Recognition>, toScreen: Rect -> Rect): (p: Processed)
    ensures |p.screenRects| == |Seqs.Filter(IsLocated, results)|
    ensures |p.trackedObjects| == Min(|Colors|, |Seqs.Filter(IsTrackable, results)|)
    ensures forall i :: 0 <= i < |p.trackedObjects| ==> p.trackedObjects[i].color == Colors[i]
    ensures forall o :: o in p.trackedObjects ==> !IsDegenerate(o.location)
    ensures forall o :: o in p.trackedObjects ==> exists r :: r in results && r.title == o.title
  {
    var cands := RectsToTrack(results);
    var tracked := TrackFrom(cands, 0);
    assert forall o :: o in tracked ==> exists c :: c in cands && o.location == c.location && o.title == c.title;
    Processed(ScreenRectsOf(results, toScreen), tracked)
  }

  /** The palette holds fifteen pairwise different colours. */
  lemma ColorsDistinct()
    ensures |Colors| == 15
    ensures forall i, j :: 0 <= i < j < |Colors| ==> Colors[i] != Colors[j]
  {
  }

  /** Tracked objects are the in-order prefix of the trackable recognitions,
      each keeping its title, confidence and frame rectangle. */
  lemma TrackedArePrefix(results: seq<Recognition>, toScreen: Rect -> Rect)
    ensures var p := ProcessResults(results, toScreen);
            var kept := Seqs.Filter(IsTrackable, results);
            forall i :: 0 <= i < |p.trackedObjects| ==>
              i < |kept| &&
              p.trackedObjects[i].title == kept[i].title &&
              p.trackedObjects[i].detectionConfidence == kept[i].confidence &&
              Some(p.trackedObjects[i].location) == kept[i].location
  {
  }

  /** No two tracked objects share a colour. */
  lemma TrackedColorsDistinct(results: seq<Recognition>, toScreen: Rect -> Rect)
    ensures var tracked := ProcessResults(results, toScreen).trackedObjects;
            forall i, j :: 0 <= i < j < |tracked| ==> tracked[i].color != tracked[j].color
  {
    ColorsDistinct();
  }

  /** A degenerate rectangle is dropped from tracking but still reaches the
      debug list of screen rectangles. */
  lemma DegenerateStillOnScreen(results: seq<Recognition>, toScreen: Rect -> Rect, r: Recognition)
    requires r in results && r.location.Some? && IsDegenerate(r.location.value)
    ensures ScreenRect(r.confidence, toScreen(r.location.value)) in ProcessResults(results, toScreen).screenRects
    ensures forall o :: o in ProcessResults(results, toScreen).trackedObjects ==> o.location != r.location.value
  {
  }

  /** Every tracked object also contributed a screen rectangle. */
  lemma TrackedWithinScreenRects(results: seq<Recognition>, toScreen: Rect -> Rect)
    ensures |ProcessResults(results, toScreen).trackedObjects| <= |ProcessResults(results, toScreen).screenRects|
  {
    Seqs.FilterMonotone(IsTrackable, IsLocated, results);
  }
}
