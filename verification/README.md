# MultiBoxTracker per-frame pipeline, in Dafny

A model of the per-frame detection pipeline of `MultiBoxTracker`, the class of an Android camera overlay that receives object-detection results, keeps only traffic-relevant labels, rebuilds the coloured list of boxes to draw, buckets each box into a 3x3 screen grid and starts an alert sound guarded by the `isSpeeching` flag. All drawing and audio calls are replaced by values: playback is a counter, the completion listener is a state transition, and the frame-to-canvas matrix is a function parameter.

Modules, one per stage:

- `Wrappers`: `Option` and `Result`. A `Failure` stands for a Java exception escaping the method.
- `Seqs`: order-preserving `Filter` and its algebra (append, idempotence, monotonicity).
- `Geometry`: `Rect` (Android `RectF` with `real` edges) and `Recognition` (title, confidence, optional location).
- `Whitelist`: `OBJECT_LIST` and the first loop of `trackResults`.
- `Tracking`: `processResults`, which covers `MIN_SIZE`, `COLORS`, the debug list `screenRects`, `rectsToTrack` and the capped, coloured `trackedObjects`.
- `Grid`: `BLOCK_NAMES` and the column/row index computation, including Java's truncating `int` division and the float-to-int cast.
- `Grouping`: the `objectCounter`/`maxTitle`/`maxCount` loop. It appears as a fold (`TallyOf`) and as the loop itself (`CountObjects`).
- `Alert`: bucketing with its exceptions, the class rules (`Classify`), the `isSpeeching` transitions and event traces.
- `MultiBoxTracker`: `trackResults` as a whole, plus `setFrameConfiguration`.

Behaviour of `MultiBoxTracker.java` worth knowing:

- **Null locations.** `processResults` skips a recognition whose location is null. `processDetectedObject` dereferences that location unconditionally, so the null raises an exception. The model returns `Failure(NullLocation)`. `trackResults` has already rebuilt the tracked list by then.
- **When the sound starts.** It starts on every non-empty whitelisted batch whose recognitions all bucket without an exception, provided no sound is playing, whatever the labels. Every class-rule branch is empty.
- **What the flag check skips.** The grouping loop, which can raise, runs before the `isSpeeching` check. Only the class rules and the playback are skipped while a sound plays.
- **Centre of the frame.** The band width is `frameWidth / 3` in integer arithmetic, so the centre of a small frame need not be in "MM". The exact centre falls in the middle band exactly when `frameWidth % 3 < frameWidth / 3` (`Grid.CentreBand`). Every frame at least 9 by 9 puts its centre in "MM"; an 8 by 8 frame puts it in "LB" (`Grid.SmallFrameCentre`).
- **Region names.** They are read as `BLOCK_NAMES[xIndex][2 - yIndex]`. The horizontal index therefore picks the T/M/B letter, and the vertical index picks the L/M/R letter in reverse. The model keeps this as written.

## Model

| member | source | states |
|---|---|---|
| Whitelist.Whitelisted | app/src/main/java/org/tensorflow/lite/examples/detection/tracking/MultiBoxTracker.java:155-164 | A recognition is kept iff it is in the batch and its title is one of the seven labels; nothing is added |
| Whitelist.FilterResults | app/src/main/java/org/tensorflow/lite/examples/detection/tracking/MultiBoxTracker.java:155-164 | The index loop that appends whitelisted recognitions builds exactly the order-preserving whitelist filter of the batch |
| Whitelist.WhitelistedAppend | app/src/main/java/org/tensorflow/lite/examples/detection/tracking/MultiBoxTracker.java:157-164 | Order is preserved: the filtered batch is the filtered first stretch followed by the filtered second stretch |
| Whitelist.WhitelistedIdempotent | app/src/main/java/org/tensorflow/lite/examples/detection/tracking/MultiBoxTracker.java:155-165 | Whitelisting an already whitelisted list changes nothing |
| Tracking.ScreenRectsOf | app/src/main/java/org/tensorflow/lite/examples/detection/tracking/MultiBoxTracker.java:359-374 | The debug list has one entry per located recognition, and every located recognition's (confidence, mapped rect) is in it, degenerate or not |
| Tracking.ScreenRectsAppend | app/src/main/java/org/tensorflow/lite/examples/detection/tracking/MultiBoxTracker.java:362-374 | The debug list follows input order across consecutive stretches of the batch |
| Tracking.RectsToTrack | app/src/main/java/org/tensorflow/lite/examples/detection/tracking/MultiBoxTracker.java:362-382 | One candidate per located, non-degenerate recognition; no candidate is narrower or shorter than 16; every candidate's title comes from the batch |
| Tracking.TrackFrom | app/src/main/java/org/tensorflow/lite/examples/detection/tracking/MultiBoxTracker.java:390-401 | The loop with its break yields min(candidates, colours left) objects, the i-th being the i-th candidate coloured `COLORS[n + i]` |
| Tracking.ProcessResults | app/src/main/java/org/tensorflow/lite/examples/detection/tracking/MultiBoxTracker.java:356-402 | Screen list length equals the located count; tracked length is min(15, trackable count); the i-th tracked object has colour `COLORS[i]`, is not degenerate and has a title from the batch |
| Tracking.ColorsDistinct | app/src/main/java/org/tensorflow/lite/examples/detection/tracking/MultiBoxTracker.java:74-90 | The palette has 15 pairwise different colours |
| Tracking.TrackedArePrefix | app/src/main/java/org/tensorflow/lite/examples/detection/tracking/MultiBoxTracker.java:381-396 | Tracked object i carries the title, confidence and frame rect of the i-th located non-degenerate recognition |
| Tracking.TrackedColorsDistinct | app/src/main/java/org/tensorflow/lite/examples/detection/tracking/MultiBoxTracker.java:395 | No two tracked objects share a colour |
| Tracking.DegenerateStillOnScreen | app/src/main/java/org/tensorflow/lite/examples/detection/tracking/MultiBoxTracker.java:374-379 | A located recognition with width or height below 16 is in the debug list but no tracked object has its rect |
| Tracking.TrackedWithinScreenRects | app/src/main/java/org/tensorflow/lite/examples/detection/tracking/MultiBoxTracker.java:362-382 | There are never more tracked objects than debug rectangles |
| Grid.TruncDiv | app/src/main/java/org/tensorflow/lite/examples/detection/tracking/MultiBoxTracker.java:185-186 | `frameWidth / BLOCK_SIZE` rounds toward zero: the quotient brackets the dividend from below for non-negative and from above for negative values |
| Grid.CellIndex | app/src/main/java/org/tensorflow/lite/examples/detection/tracking/MultiBoxTracker.java:185-186 | For a positive band width the index exists iff 0 <= c < 3 * band, and then names the band [i*band, (i+1)*band) holding c; any index is in 0..2 |
| Grid.Position | app/src/main/java/org/tensorflow/lite/examples/detection/tracking/MultiBoxTracker.java:185-189 | The lookup succeeds iff both indices are in range, and the name is the L/M/R letter of the reversed vertical index followed by the T/M/B letter of the horizontal index |
| Grid.CentreBand | app/src/main/java/org/tensorflow/lite/examples/detection/tracking/MultiBoxTracker.java:185-186 | The centre of a d-wide frame is in the middle band iff d % 3 < d / 3 |
| Grid.CentreIsMM | app/src/main/java/org/tensorflow/lite/examples/detection/tracking/MultiBoxTracker.java:185-189 | For frames at least 9 by 9 the exact centre is in "MM" |
| Grid.SmallFrameCentre | app/src/main/java/org/tensorflow/lite/examples/detection/tracking/MultiBoxTracker.java:185-189 | The centre of an 8 by 8 frame is in "LB" |
| Grouping.GroupOf | app/src/main/java/org/tensorflow/lite/examples/detection/tracking/MultiBoxTracker.java:191-200 | A label's group is empty exactly when the label is absent, and never longer than the batch |
| Grouping.PushFrame | app/src/main/java/org/tensorflow/lite/examples/detection/tracking/MultiBoxTracker.java:191-200 | One iteration changes only the observed label's list, extending it by that pair; other labels keep their lists; the maximum never decreases and bounds the new list; `maxTitle` changes only to the observed label |
| Grouping.TallyBounds | app/src/main/java/org/tensorflow/lite/examples/detection/tracking/MultiBoxTracker.java:175-200 | After the loop there is at most one key per recognition, every list is non-empty and no longer than the batch, and `maxCount` is at most the batch size and positive iff the batch is non-empty |
| Grouping.TallyGroups | app/src/main/java/org/tensorflow/lite/examples/detection/tracking/MultiBoxTracker.java:191-200 | The map's keys are the labels seen, and each label maps to its pairs in input order, one per occurrence |
| Grouping.StepMax | app/src/main/java/org/tensorflow/lite/examples/detection/tracking/MultiBoxTracker.java:194-198 | One iteration grows the label's list by one and takes over the maximum only on a strictly larger count |
| Grouping.MaxIsLargestGroup | app/src/main/java/org/tensorflow/lite/examples/detection/tracking/MultiBoxTracker.java:176-198 | `maxCount` bounds every group and is the size of `maxTitle`'s group; an empty batch leaves 0 and "" |
| Grouping.ReachBounded | app/src/main/java/org/tensorflow/lite/examples/detection/tracking/MultiBoxTracker.java:194-198 | No observation ever brings its group above the final `maxCount` |
| Grouping.MaxAttained | app/src/main/java/org/tensorflow/lite/examples/detection/tracking/MultiBoxTracker.java:194-198 | On a non-empty batch some observation brings its group to exactly `maxCount` |
| Grouping.MaxTitleFirstToReach | app/src/main/java/org/tensorflow/lite/examples/detection/tracking/MultiBoxTracker.java:195-198 | `maxTitle` is the label of the first observation whose group reaches `maxCount` |
| Grouping.SingleLabelGroup | app/src/main/java/org/tensorflow/lite/examples/detection/tracking/MultiBoxTracker.java:213-214 | With one label present, its group is every pair of the batch in order |
| Grouping.CountObjects | app/src/main/java/org/tensorflow/lite/examples/detection/tracking/MultiBoxTracker.java:175-204 | The loop as written ends with the groups by label, `maxCount` the largest group, and `maxTitle` the first label to reach it |
| Alert.Observe | app/src/main/java/org/tensorflow/lite/examples/detection/tracking/MultiBoxTracker.java:180-189 | A recognition raises the missing-location fault iff it has no location, raises at all iff it has no location or its centre lies outside the 3x3 table, and otherwise yields its own title, its box's area and its region name, the table entry at the box centre |
| Alert.ObserveAll | app/src/main/java/org/tensorflow/lite/examples/detection/tracking/MultiBoxTracker.java:179-189 | Either every recognition buckets and the pairs line up with the batch, or the first recognition that raises decides the exception |
| Alert.SingleLabelTally | app/src/main/java/org/tensorflow/lite/examples/detection/tracking/MultiBoxTracker.java:213-214 | The map has as many keys as labels; with one label, `maxTitle` is it and `objectCounter.get(maxTitle)` is the whole batch |
| Alert.Classify | app/src/main/java/org/tensorflow/lite/examples/detection/tracking/MultiBoxTracker.java:213-305 | A per-class cue is reached only when that class is the only label in the frame; no cue at all means exactly one label was present |
| Alert.ClassifyManyKinds | app/src/main/java/org/tensorflow/lite/examples/detection/tracking/MultiBoxTracker.java:213-305 | The per-class rules are bypassed iff the frame holds other than exactly one label |
| Alert.ClassifyPerson | app/src/main/java/org/tensorflow/lite/examples/detection/tracking/MultiBoxTracker.java:216-240 | Pedestrians only: crowd iff more than four; nearby pedestrian iff at most four and one in MM/MB with area above 30000 |
| Alert.ClassifyVehicle | app/src/main/java/org/tensorflow/lite/examples/detection/tracking/MultiBoxTracker.java:242-263 | One vehicle label only: nearby vehicle iff one in MM/MB with area above 100000, otherwise no cue |
| Alert.ClassifyCyclist | app/src/main/java/org/tensorflow/lite/examples/detection/tracking/MultiBoxTracker.java:264-282 | Cyclists only: nearby cyclist iff one in MM/MB with area above 50000, otherwise no cue |
| Alert.ClassifyBollard | app/src/main/java/org/tensorflow/lite/examples/detection/tracking/MultiBoxTracker.java:283-300 | Bollards only: obstacle ahead iff one is in the bottom row, otherwise no cue |
| Alert.DetectTwoKinds | app/src/main/java/org/tensorflow/lite/examples/detection/tracking/MultiBoxTracker.java:213-305 | Two different labels in a frame reach no per-class rule, whatever the positions and areas |
| Alert.DetectObjects | app/src/main/java/org/tensorflow/lite/examples/detection/tracking/MultiBoxTracker.java:173-316 | Empty batch: no change; an exception iff some recognition cannot be bucketed; playing: flag unchanged, no playback, no rules; idle: flag set and exactly one playback |
| Alert.DetectCue | app/src/main/java/org/tensorflow/lite/examples/detection/tracking/MultiBoxTracker.java:206-309 | When no sound plays and the batch buckets, the rules run on the bucketed batch and their cue is its classification |
| Alert.TransitionIgnoresContent | app/src/main/java/org/tensorflow/lite/examples/detection/tracking/MultiBoxTracker.java:213-309 | Any two non-empty bucketable batches move the flag identically: labels, positions and areas do not matter |
| Alert.Debounce | app/src/main/java/org/tensorflow/lite/examples/detection/tracking/MultiBoxTracker.java:206-315 | Over any sequence of frames and completions, playbacks started exceed the completions by at most one |
| Alert.SpeakingBlocks | app/src/main/java/org/tensorflow/lite/examples/detection/tracking/MultiBoxTracker.java:206 | While a sound plays, any run of frames without a completion leaves the state unchanged |
| Alert.CompletionRearms | app/src/main/java/org/tensorflow/lite/examples/detection/tracking/MultiBoxTracker.java:307-315 | After a completion the next non-empty bucketable frame sets the flag and starts one playback |
| MultiBoxTracker.TrackResults | app/src/main/java/org/tensorflow/lite/examples/detection/tracking/MultiBoxTracker.java:153-170 | The debug list is the in-order image of the located whitelisted recognitions (entry i is the i-th one's confidence and mapped rectangle); the tracked list is the in-order image of the first min(15, trackable) trackable whitelisted recognitions (object i has the i-th one's title, confidence and frame rectangle, coloured `COLORS[i]`), all non-degenerate; frame configuration kept; the flag moves only on a non-empty whitelisted batch with no sound playing and no exception |
| MultiBoxTracker.ConfigurationDrivesBucketing | app/src/main/java/org/tensorflow/lite/examples/detection/tracking/MultiBoxTracker.java:127-132 | After `setFrameConfiguration`, a frame raises exactly when some whitelisted recognition cannot be bucketed in a frame of the configured size; the tracked list does not depend on the configuration |
| MultiBoxTracker.WhitelistGate | app/src/main/java/org/tensorflow/lite/examples/detection/tracking/MultiBoxTracker.java:155-168 | Removing non-whitelisted recognitions beforehand changes nothing: they reach neither tracking nor bucketing |
| MultiBoxTracker.ListsReplaced | app/src/main/java/org/tensorflow/lite/examples/detection/tracking/MultiBoxTracker.java:359-384 | The new tracked and debug lists do not depend on the previous frame's lists |
| MultiBoxTracker.LonePedestrianScenario | app/src/main/java/org/tensorflow/lite/examples/detection/tracking/MultiBoxTracker.java:226-237 | One pedestrian in MB with area 35000 in a 600 by 500 frame reaches the nearby-pedestrian rule and starts the sound |

## Left out

- `draw` and `drawDebug` (lines 134-150 and 322-354) are left out. They are Canvas/Paint/BorderedText rendering and float aspect-fit arithmetic around `ImageUtils.getTransformationMatrix`, which is not part of this model. So is the `sensorOrientation % 180 == 90` swap inside `draw`.
- The `Matrix.mapRect` frame-to-screen mapping is a parameter `toScreen: Rect -> Rect`. It is taken as given.
- `MediaPlayer`, `Context`, `Logger`, `TypedValue` and the constructor are platform I/O. Playback is the counter `playbacks`; the listener is `OnCompletion`.
- Java `==` on strings (lines 216-293) is modelled as value equality. As written, it compares references. For `maxTitle`, which comes from the detector, that comparison can fail even for equal text.
- The class-rule branches have empty bodies. They are modelled as the pure `Classify`, whose result has no effect on state.
- `synchronized` and the unsynchronized static flag are concurrency and are left out. Events are applied one at a time. The static `isSpeeching` is a field of a single modelled tracker.
- Float precision, NaN and infinite coordinates, and float-versus-int comparison are not modelled. Coordinates and areas are `real`. The one float corner kept is a zero band width (frames narrower than 3): it gives NaN or an infinite quotient before the cast.
- Recognition titles are never null in the model. A null title would be dropped by the whitelist before it could matter.
- `COLORS` holds the ARGB values as unsigned numbers, not Java's signed `int`s. Only their distinctness matters here.
- `ObjectInfo.java` and the `availableColors` queue are never used by the pipeline.
- The `timestamp` argument of `trackResults` is used only in a commented-out log line.
