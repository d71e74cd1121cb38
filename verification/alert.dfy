/** `processDetectedObject` after grouping: the per-class alert rules, whose
    branches all have empty bodies, and the `isSpeeching` debounce flag that
    guards the one sound the tracker plays. */
module Alert {
  import opened Wrappers
  import opened Geometry
  import Grid
  import opened Grouping
  import opened Whitelist

  /** The exceptions the method can raise on a whitelisted batch: a null
      location, or a centre outside the 3x3 table. */
  datatype Fault = NullLocation | IndexOutOfBounds

  /** The static `isSpeeching` flag, and how many times playback was started. */
  datatype AlertState = AlertState(speaking: bool, playbacks: nat)

  /** The outcome a class rule reaches. None of them has an effect: the
      Java code leaves each branch body empty. */
  datatype Cue = Crowd | NearbyPedestrian | NearbyVehicle | NearbyCyclist | ObstacleAhead | NoCue | ManyKinds

  /** A completed call: the new flag state, and the cue when the rules were evaluated. */
  datatype Reaction = Reaction(state: AlertState, cue: Option<Cue>)

  /** The label and `(position, areaSize)` pair of one recognition. */
  function Observe(r: Recognition, frameWidth: int, frameHeight: int): (o: Result<Observation, Fault>)
    ensures o == Failure(NullLocation) <==> r.location.None?
    ensures o.Failure? <==>
      || r.location.None?
      || Grid.Position(r.location.value.CenterX(), r.location.value.CenterY(), frameWidth, frameHeight).None?
    ensures o.Success? ==> o.value.title == r.title && o.value.entry.area == r.location.value.Area()
    ensures o.Success? ==>
      Grid.Position(r.location.value.CenterX(), r.location.value.CenterY(), frameWidth, frameHeight)
        == Some(o.value.entry.position)
  {
    match r.location
    case None => Failure(NullLocation)
    case Some(loc) =>
      match Grid.Position(loc.CenterX(), loc.CenterY(), frameWidth, frameHeight)
      case None => Failure(IndexOutOfBounds)
      case Some(position) => Success(Observation(r.title, Entry(position, loc.Area())))
  }

  /** Recognition `i` is the first of the batch to raise, and it raises `e`. */
  predicate FaultsFirstAt(results: seq<Recognition>, frameWidth: int, frameHeight: int, e: Fault, i: int) {
    && 0 <= i < |results|
    && Observe(results[i], frameWidth, frameHeight) == Failure(e)
    && forall j :: 0 <= j < i ==> Observe(results[j], frameWidth, frameHeight).Success?
  }

  ghost predicate FirstFault(results: seq<Recognition>, frameWidth: int, frameHeight: int, e: Fault) {
    exists i :: FaultsFirstAt(results, frameWidth, frameHeight, e, i)
  }

  lemma FirstFaultCons(results: seq<Recognition>, frameWidth: int, frameHeight: int, e: Fault)
    requires results != [] && Observe(results[0], frameWidth, frameHeight).Success?
    requires FirstFault(results[1..], frameWidth, frameHeight, e)
    ensures FirstFault(results, frameWidth, frameHeight, e)
  {
    var k :| FaultsFirstAt(results[1..], frameWidth, frameHeight, e, k);
    assert FaultsFirstAt(results, frameWidth, frameHeight, e, k + 1);
  }

  /** The bucketing part of the loop over a whole batch; the first failing
      recognition aborts the method with its exception. */
  function ObserveAll(results: seq<Recognition>, frameWidth: int, frameHeight: int): (r: Result<seq<Observation>, Fault>)
    ensures r.Success? ==>
      && |r.value| == |results|
      && forall i :: 0 <= i < |results| ==> Observe(results[i], frameWidth, frameHeight) == Success(r.value[i])
    ensures r.Failure? ==> FirstFault(results, frameWidth, frameHeight, r.error)
  {
    if results == [] then Success([])
    else
      match Observe(results[0], frameWidth, frameHeight)
      case Failure(e) =>
        assert FaultsFirstAt(results, frameWidth, frameHeight, e, 0);
        Failure(e)
      case Success(o) =>
        match ObserveAll(results[1..], frameWidth, frameHeight)
        case Failure(e) =>
          FirstFaultCons(results, frameWidth, frameHeight, e);
          Failure(e)
        case Success(os) => Success([o] + os)
  }

  /** Centre of the screen (or its lower middle) with an area above `threshold`. */
  predicate IsMiddle(e: Entry, threshold: real) {
    (e.position == "MM" || e.position == "MB") && e.area > threshold
  }

  /** Anywhere in the bottom row. */
  predicate IsBottom(e: Entry) {
    e.position == "LB" || e.position == "MB" || e.position == "RB"
  }

  /** The `isMiddle` scan over a label's list. */
  predicate AnyMiddle(list: seq<Entry>, threshold: real) {
    exists i :: 0 <= i < |list| && IsMiddle(list[i], threshold)
  }

  /** The `isBottom` scan over a label's list. */
  predicate AnyBottom(list: seq<Entry>) {
    exists i :: 0 <= i < |list| && IsBottom(list[i])
  }

  /** The pairs of a batch, in input order. */
  function Entries(obs: seq<Observation>): seq<Entry> {
    seq(|obs|, i requires 0 <= i < |obs| => obs[i].entry)
  }

  lemma SingletonSet(s: set<string>, x: string)
    requires x in s && |s| == 1
    ensures s == {x}
  {
    assert |s - {x}| == 0;
    assert s - {x} == {};
  }

  /** The rule table of `MultiBoxTracker.java`, read on the loop's final variables:
      `objectCounter.size() == 1`, then `maxTitle` against the whitelist
      positions, then the scans of that label's list. */
  function Rule(t: Tally): Cue
    requires |t.groups| == 1 ==> t.maxTitle in t.groups
  {
    if |t.groups| != 1 then ManyKinds
    else
      var list := t.groups[t.maxTitle];
      if t.maxTitle == ObjectList[0] then
        if |list| > 4 then Crowd
        else if AnyMiddle(list, 30000.0) then NearbyPedestrian
        else NoCue
      else if t.maxTitle == ObjectList[1] || t.maxTitle == ObjectList[2]
           || t.maxTitle == ObjectList[3] || t.maxTitle == ObjectList[4] then
        if AnyMiddle(list, 100000.0) then NearbyVehicle else NoCue
      else if t.maxTitle == ObjectList[5] then
        if AnyMiddle(list, 50000.0) then NearbyCyclist else NoCue
      else if t.maxTitle == ObjectList[6] then
        if AnyBottom(list) then ObstacleAhead else NoCue
      else NoCue
  }

  /** With exactly one label present, the map has one key, `maxTitle` is
      that label, and its list is every pair of the batch. */
  lemma SingleLabelTally(obs: seq<Observation>)
    requires obs != []
    ensures |TallyOf(obs).groups| == |Titles(obs)|
    ensures TallyOf(obs).maxTitle in TallyOf(obs).groups
    ensures |Titles(obs)| == 1 ==>
      Titles(obs) == {TallyOf(obs).maxTitle} && TallyOf(obs).groups[TallyOf(obs).maxTitle] == Entries(obs)
  {
    var t := TallyOf(obs);
    TallyGroups(obs);
    MaxIsLargestGroup(obs);
    assert |t.groups.Keys| == |t.groups|;
    if |Titles(obs)| == 1 {
      SingletonSet(Titles(obs), t.maxTitle);
      SingleLabelGroup(obs, t.maxTitle);
    }
  }

  /** The class rules applied to a bucketed, non-empty batch. */
  function Classify(obs: seq<Observation>): (c: Cue)
    requires obs != []
    ensures c == Crowd || c == NearbyPedestrian ==> Titles(obs) == {"person"}
    ensures c == NearbyVehicle ==> exists v :: v in ["motorcycle", "bus", "car", "truck"] && Titles(obs) == {v}
    ensures c == NearbyCyclist ==> Titles(obs) == {"bikerider"}
    ensures c == ObstacleAhead ==> Titles(obs) == {"bollard"}
    ensures c == NoCue ==> |Titles(obs)| == 1
  {
    SingleLabelTally(obs);
    Rule(TallyOf(obs))
  }

  /** Two or more labels in one frame: no class rule applies. */
  lemma ClassifyManyKinds(obs: seq<Observation>)
    requires obs != []
    ensures Classify(obs) == ManyKinds <==> |Titles(obs)| != 1
  {
    SingleLabelTally(obs);
  }

  lemma SingleTitle(obs: seq<Observation>, title: string)
    requires obs != [] && Titles(obs) == {title}
    ensures |Titles(obs)| == 1 && |TallyOf(obs).groups| == 1 && TallyOf(obs).maxTitle == title
    ensures title in TallyOf(obs).groups && TallyOf(obs).groups[title] == Entries(obs)
    ensures Classify(obs) == Rule(TallyOf(obs))
    ensures |Entries(obs)| == |obs|
  {
    SingleLabelTally(obs);
  }

  /** Pedestrians: more than four make a crowd; otherwise one in the centre
      or lower middle with an area above 30000 is a nearby pedestrian. */
  lemma ClassifyPerson(obs: seq<Observation>)
    requires obs != [] && Titles(obs) == {"person"}
    ensures Classify(obs) == Crowd <==> |obs| > 4
    ensures Classify(obs) == NearbyPedestrian <==> |obs| <= 4 && AnyMiddle(Entries(obs), 30000.0)
  {
    SingleTitle(obs, "person");
  }

  /** Vehicles: one in the centre or lower middle with an area above 100000. */
  lemma ClassifyVehicle(obs: seq<Observation>, title: string)
    requires title in ["motorcycle", "bus", "car", "truck"]
    requires obs != [] && Titles(obs) == {title}
    ensures Classify(obs) == NearbyVehicle <==> AnyMiddle(Entries(obs), 100000.0)
    ensures Classify(obs) == NearbyVehicle || Classify(obs) == NoCue
  {
    SingleTitle(obs, title);
  }

  /** Cyclists: one in the centre or lower middle with an area above 50000. */
  lemma ClassifyCyclist(obs: seq<Observation>)
    requires obs != [] && Titles(obs) == {"bikerider"}
    ensures Classify(obs) == NearbyCyclist <==> AnyMiddle(Entries(obs), 50000.0)
    ensures Classify(obs) == NearbyCyclist || Classify(obs) == NoCue
  {
    SingleTitle(obs, "bikerider");
  }

  /** Bollards: any one in the bottom row, whatever its size. */
  lemma ClassifyBollard(obs: seq<Observation>)
    requires obs != [] && Titles(obs) == {"bollard"}
    ensures Classify(obs) == ObstacleAhead <==> AnyBottom(Entries(obs))
    ensures Classify(obs) == ObstacleAhead || Classify(obs) == NoCue
  {
    SingleTitle(obs, "bollard");
  }

  /** `processDetectedObject` on a whitelisted batch. */
  function DetectObjects(s: AlertState, results: seq<Recognition>, frameWidth: int, frameHeight: int): (r: Result<Reaction, Fault>)
    ensures results == [] ==> r == Success(Reaction(s, None))
    ensures results != [] ==>
      (r.Failure? <==> exists i :: 0 <= i < |results| && Observe(results[i], frameWidth, frameHeight).Failure?)
    ensures r.Success? && s.speaking ==> r.value == Reaction(s, None)
    ensures r.Success? && results != [] && !s.speaking ==>
      r.value.state == AlertState(true, s.playbacks + 1) && r.value.cue.Some?
  {
    if results == [] then Success(Reaction(s, None))
    else
      match ObserveAll(results, frameWidth, frameHeight)
      case Failure(e) => Failure(e)
      case Success(obs) =>
        if s.speaking then Success(Reaction(s, None))
        else Success(Reaction(AlertState(true, s.playbacks + 1), Some(Classify(obs))))
  }

  /** Two different labels in one bucketable frame: the class rules reach
      no per-class outcome, whatever the positions and areas. */
  lemma DetectTwoKinds(s: AlertState, results: seq<Recognition>, w: int, h: int, i: int, j: int)
    requires !s.speaking
    requires 0 <= i < |results| && 0 <= j < |results| && results[i].title != results[j].title
    requires DetectObjects(s, results, w, h).Success?
    ensures DetectObjects(s, results, w, h).value.cue == Some(ManyKinds)
  {
    var all := ObserveAll(results, w, h);
    assert all.Success?;
    var obs := all.value;
    assert Observe(results[i], w, h) == Success(obs[i]);
    assert Observe(results[j], w, h) == Success(obs[j]);
    assert obs[i].title in Titles(obs) && obs[j].title in Titles(obs);
    if |Titles(obs)| == 1 {
      SingletonSet(Titles(obs), obs[i].title);
    }
    ClassifyManyKinds(obs);
  }

  /** When the rules run, the cue is the classification of the bucketed batch. */
  lemma DetectCue(s: AlertState, results: seq<Recognition>, w: int, h: int)
    requires !s.speaking && results != []
    requires DetectObjects(s, results, w, h).Success?
    ensures ObserveAll(results, w, h).Success?
    ensures DetectObjects(s, results, w, h).value.cue == Some(Classify(ObserveAll(results, w, h).value))
  {
  }

  /** The completion listener: the sound has finished. */
  function OnCompletion(s: AlertState): AlertState
  {
    AlertState(false, s.playbacks)
  }

  /** What the flag sees: a frame handed to `processDetectedObject`, or the end of playback. */
  datatype Event = Frame(results: seq<Recognition>, frameWidth: int, frameHeight: int) | Completed

  function Apply(s: AlertState, e: Event): AlertState {
    match e
    case Completed => OnCompletion(s)
    case Frame(results, w, h) =>
      match DetectObjects(s, results, w, h)
      case Success(reaction) => reaction.state
      case Failure(_) => s
  }

  function Run(s: AlertState, events: seq<Event>): AlertState
    decreases |events|
  {
    if events == [] then s else Run(Apply(s, events[0]), events[1..])
  }

  function Completions(events: seq<Event>): nat
    decreases |events|
  {
    if events == [] then 0 else (if events[0].Completed? then 1 else 0) + Completions(events[1..])
  }

  /** The label content of a batch never changes the flag transition: any
      two non-empty batches that bucket without an exception move the flag
      the same way. */
  lemma TransitionIgnoresContent(s: AlertState, a: seq<Recognition>, b: seq<Recognition>, w: int, h: int)
    requires a != [] && b != []
    requires DetectObjects(s, a, w, h).Success? && DetectObjects(s, b, w, h).Success?
    ensures DetectObjects(s, a, w, h).value.state == DetectObjects(s, b, w, h).value.state
  {
  }

  /** Debounce: each playback after the first needs a completion before it,
      so over any run the number of starts is bounded by the completions. */
  lemma {:induction false} Debounce(s: AlertState, events: seq<Event>)
    ensures Run(s, events).playbacks + (if Run(s, events).speaking then 0 else 1)
      <= s.playbacks + (if s.speaking then 0 else 1) + Completions(events)
    decreases |events|
  {
    if events != [] {
      Debounce(Apply(s, events[0]), events[1..]);
    }
  }

  /** While the sound plays and no completion arrives, frames change nothing. */
  lemma {:induction false} SpeakingBlocks(s: AlertState, events: seq<Event>)
    requires s.speaking
    requires forall i :: 0 <= i < |events| ==> events[i].Frame?
    ensures Run(s, events) == s
    decreases |events|
  {
    if events != [] {
      SpeakingBlocks(Apply(s, events[0]), events[1..]);
    }
  }

  /** After a completion the next bucketable non-empty frame starts the sound again. */
  lemma CompletionRearms(s: AlertState, results: seq<Recognition>, w: int, h: int)
    requires results != [] && ObserveAll(results, w, h).Success?
    ensures Run(s, [Completed, Frame(results, w, h)]) == AlertState(true, s.playbacks + 1)
  {
    var s1 := OnCompletion(s);
    var f := Frame(results, w, h);
    assert !s1.speaking;
    var r := DetectObjects(s1, results, w, h);
    assert r.Success?;
    assert Apply(s1, f) == AlertState(true, s.playbacks + 1);
    assert Run(s1, [f]) == Run(Apply(s1, f), []);
    assert [Completed, f][1..] == [f];
    assert Run(s, [Completed, f]) == Run(s1, [f]);
  }
}
