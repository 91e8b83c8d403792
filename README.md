# GuiDAR obstacle announcer — Dafny model

GuiDAR helps visually-impaired users by probing a fixed grid of screen points
with an augmented-reality depth session. Each probe lands on a classified
surface (wall, floor, door, ...) at some distance. Geometry-query
completions feed the resolved observations (`DataPoint`s) into a FIFO
`Queue`. The queries are started by the scan timer and by screen taps. A process timer
drains that queue, picks the closest observation, and speaks one sentence
such as `Wall4feetleft`.

This project models that core from `GuiDAR/ViewController.swift`:

- `decimal.dfy` (`Decimal`): the decimal numeral for the spoken whole feet,
  written as Swift's `String(_: Int)` writes it, plus its inverse, with both
  round trips proved.
- `queue.dfy` (`Fifo`): `Queue<T>` as a class over a `seq` buffer. A ghost
  public view (`Contents`) and a ghost history (`Enqueued`, `Removed`) are tied
  to the buffer by `Valid()`. That invariant is the conservation law: what was
  handed out, followed by what remains, is exactly what was enqueued.
- `data_point.dfy` (`DataPoints`): the `DataPoint` record, its two
  initialisers (`AtScreenPoint`, `WithDistance`), the 12-point sample grid
  of `simulateTaps` with the unresolved requests of one scan tick
  (`ScanRequests`), and the completion step that fills in a request's
  distance and classification (`Resolve`).
- `guidance.dfy` (`Guidance`): the decision step.
  - `Closest` specifies the closest-point scan against the 100 ft sentinel;
    `FindClosest` is the loop that computes it.
  - `Position` maps x to a direction word, `Utterance` builds the sentence,
    and `Announce`/`Decide` apply the threshold and Floor rules.
  - `ParseUtterance` is an inverse of `Utterance`, defined only in the model,
    that shows the sentence can be read back unambiguously.
- `pipeline.dfy` (`Pipeline`): the controller object that owns the queue. Its
  producer step `OnPointResolved` is the enqueue-on-resolve completion. Its
  `ProcessData` is the process tick and returns the sentence to speak as an
  `Option<string>`.

Units: a distance is a `nat` count of hundredths of a foot, because the
geometry query rounds to 0.01 ft before storing the value. So the 6.0 ft
threshold is 600, the `DataPoint(distance: 100)` sentinel is 10000, and
`Int(distance)` is `distance / 100`. Screen x and y are integers.

This version of the code has no Floor or Ceiling filter before the minimum
is taken, so a nearer Floor point silences a farther wall. Its only distance
threshold is 6 ft. Its grid has 12 points in 3 columns. It has no
obstruction check, no haptics, no guard against speaking over a sentence in
progress, and no vertical direction words. It always says "feet", never
"foot". The model does the same.

## Model

| member | source | states |
|---|---|---|
| `Fifo.Queue.constructor` | GuiDAR/ViewController.swift:425-426 | a new queue is empty and has an empty history |
| `Fifo.Queue.Enqueue` | GuiDAR/ViewController.swift:428-430 | contents become the old contents followed by the value; size grows by one; tail is the value; the value is added to the enqueue history; conservation is kept |
| `Fifo.Queue.Dequeue` | GuiDAR/ViewController.swift:432-437 | on an empty queue returns None and changes nothing; otherwise returns the old front and leaves the remaining elements in order, recording the front as handed out |
| `Fifo.Queue.DequeueAll` | GuiDAR/ViewController.swift:438-442 | returns exactly the prior contents in insertion order and leaves the queue empty; the batch is appended to the handed-out history, so batches drained so far plus what remains equal everything enqueued |
| `Fifo.Queue.Head` | GuiDAR/ViewController.swift:444-446 | None exactly when empty, otherwise the first element |
| `Fifo.Queue.Tail` | GuiDAR/ViewController.swift:448-450 | None exactly when empty, otherwise the last element |
| `Fifo.Queue.IsEmpty` | GuiDAR/ViewController.swift:452-454 | true exactly when the size is 0, that is, when there are no contents |
| `Fifo.Queue.Size` | GuiDAR/ViewController.swift:456-458 | the number of elements held |
| `DataPoints.AtScreenPoint` | GuiDAR/ViewController.swift:411-415 | `init(cgPoint:)`: the given screen point, distance 0, empty classification |
| `DataPoints.WithDistance` | GuiDAR/ViewController.swift:417-421 | `init(distance:)`: screen point (0,0), the given distance, empty classification |
| `DataPoints.ScanRequests` | GuiDAR/ViewController.swift:121-133 | a scan tick builds twelve requests, row-major over columns 50, 200, 350 and rows 100, 350, 500, 650, each with distance 0 and an empty classification |
| `DataPoints.Resolve` | GuiDAR/ViewController.swift:259-260 | the completion keeps the request's screen point and stores the measured distance and classification |
| `DataPoints.SampleGridIsRowMajorProduct` | GuiDAR/ViewController.swift:122-133 | the grid is 12 distinct points, row-major over columns 50, 200, 350 and rows 100, 350, 500, 650 |
| `DataPoints.SampleGridMembership` | GuiDAR/ViewController.swift:122-133 | a point is in the grid exactly when its x is a column and its y a row |
| `Guidance.Closest` | GuiDAR/ViewController.swift:153-160 | the selected point is never farther than the sentinel, and it is either the sentinel itself or an element of the batch |
| `Guidance.FindClosest` | GuiDAR/ViewController.swift:153-160 | the scan from the sentinel with strict `<` yields the specified closest point |
| `Guidance.ClosestIsEarliestMinimum` | GuiDAR/ViewController.swift:153-160 | the selected distance is at most the sentinel and at most every batch distance; with a reading below 100 ft it is the earliest batch element of minimum distance; with none it is the sentinel (screen point (0,0), distance 100 ft, empty classification) |
| `Guidance.ClosestComesFromBatch` | GuiDAR/ViewController.swift:156-159 | the selected point is below the sentinel exactly when some observation is, and then it is an element of the batch |
| `Guidance.Position` | GuiDAR/ViewController.swift:171-179 | always one of left/ahead/right; "left" exactly for x = 50, "ahead" exactly for x = 200, and "right" for every other x |
| `Guidance.SampleGridPositions` | GuiDAR/ViewController.swift:171-179 | across the sample grid, and across the requests of a scan tick, the three columns map in order to left, ahead, right |
| `Guidance.Utterance` | GuiDAR/ViewController.swift:181 | the sentence is the classification, then a canonical numeral whose value is the truncated feet, then "feet", then the direction word of the point's x |
| `Guidance.Announce` | GuiDAR/ViewController.swift:162-181 | a selected point is announced exactly when it is nearer than 6.00 ft and not Floor, and then with its own sentence |
| `Guidance.Decide` | GuiDAR/ViewController.swift:153-181 | whenever a batch is announced, the sentence is that of one of the batch's own observations, which is nearer than 6.00 ft and not Floor |
| `Guidance.DecideSpeaksIff` | GuiDAR/ViewController.swift:162-181 | a batch is announced exactly when its selected point is below 6.00 ft and not Floor; the sentence is that point's utterance, the point is from the batch, and the spoken feet are at most 5 |
| `Guidance.FloorShadowsFartherObstacles` | GuiDAR/ViewController.swift:162-169 | a Floor point strictly nearer than every other observation silences the whole batch, since the Floor test applies only to the selected point |
| `Guidance.NothingNearIsSilent` | GuiDAR/ViewController.swift:162-164 | if no observation is nearer than 6.00 ft, nothing is spoken; this includes the case where the sentinel is kept |
| `Guidance.ThresholdExamples` | GuiDAR/ViewController.swift:162-181 | exactly 6.00 ft is silent; 5.99 ft gives "Wall5feetahead" |
| `Guidance.FloorExamples` | GuiDAR/ViewController.swift:153-181 | a Floor point at 1.20 ft silences a wall at 3.00 ft; a Floor point at 7.20 ft leaves it announced as "Wall3feetright" |
| `Guidance.TieExample` | GuiDAR/ViewController.swift:153-181 | of two points at the same distance, the earlier one ("Seat2feetleft") is announced |
| `Guidance.ParseUtteranceRoundTrip` | GuiDAR/ViewController.swift:181 | for a digit-free classification, the sentence reads back as the classification, the truncated feet and the direction word |
| `Decimal.DecimalString` | GuiDAR/ViewController.swift:181 | the rendered number is a non-empty digit string with no leading zero, one digit long exactly when the number is below 10 |
| `Decimal.ValueOfDecimalString` | GuiDAR/ViewController.swift:181 | reading the rendered numeral back gives the number |
| `Decimal.DecimalStringOfValue` | GuiDAR/ViewController.swift:181 | every canonical numeral is the rendering of its own value, so the rendering is one-to-one onto canonical numerals |
| `Pipeline.GuidancePipeline.constructor` | GuiDAR/ViewController.swift:35 | the controller starts with a fresh, empty queue |
| `Pipeline.GuidancePipeline.OnPointResolved` | GuiDAR/ViewController.swift:259-261 | the resolved point is appended to the back of the queue, and nothing is handed out |
| `Pipeline.GuidancePipeline.ProcessData` | GuiDAR/ViewController.swift:142-189 | on an empty queue: says nothing, changes nothing. Otherwise: the queue ends empty whether or not anything is said, the drained batch is exactly the old contents, and the result is `Decide` of that batch |
| `Pipeline.DoorThenWallBatch` | GuiDAR/ViewController.swift:153-181 | a door at 5.10 ft then a wall at 4.37 ft on the left yields "Wall4feetleft" |
| `Pipeline.TwoCompletionsThenTwoTicks` | GuiDAR/ViewController.swift:142-189 | after two enqueues, the first tick returns the nearer point's sentence "Wall4feetleft" and the second tick returns None |

## Left out

- AR session setup, raycasting, anchors, scene markers and the reset button (GuiDAR/ViewController.swift:38-92, 225-230, 280-284) are framework calls. A raycast that misses produces no observation; in the model that point is simply never passed to `OnPointResolved`.
- The face search `nearbyFaceWithClassification` (GuiDAR/ViewController.swift:312-352) is floating-point vector geometry over mesh anchors, run on a background queue. In words: it drops anchors farther than 4 m, searches the rest nearest-first, and yields the first face within 0.05 m, or "none". The model takes its result as an already-resolved `DataPoint`.
- The conversion to feet and the rounding `round(d * 3.28084 * 100) / 100`, and the text scaling (GuiDAR/ViewController.swift:238-250), are floating-point arithmetic. The model takes the rounded value as a whole number of hundredths of a foot.
- The `DispatchQueue.main.async` hand-off and the timer scheduling (GuiDAR/ViewController.swift:111-117, 235) are concurrency plumbing. Each tick and each completion is one method call on the pipeline, run one after another. As written, lines 111-117 stand outside any function body, after `dimScreen` closes at line 109.
- The speech synthesizer and its rate, pitch, volume and voice (GuiDAR/ViewController.swift:181-186, 213) are audio output calls. `ProcessData` returns the sentence it would speak instead.
- The two debug `print` calls in `processData` (GuiDAR/ViewController.swift:146, 152) only log the queue size.
- Taps are a second producer. `handleTap` (GuiDAR/ViewController.swift:209-214) calls `measureAndIdentify` for the tapped location. That call's completion enqueues the tapped point (GuiDAR/ViewController.swift:259-261), exactly as for a grid point. `OnPointResolved` covers both producers, since it takes any resolved point. A tap location can have a fractional, off-grid x. An integer x loses nothing here, because `Position` only tests x against 50 and 200; any other x, fractional or not, gives "right". The "Tapped here!" sentence spoken on each tap (GuiDAR/ViewController.swift:213) is left out.
- The screen dimmer, the tap gesture set-up, the session-error alert, 3D text `model(for:)` with its cache, and `sphere` (GuiDAR/ViewController.swift:71-72, 95-109, 354-401) are user interface and rendering.
- In `simulateTaps` (GuiDAR/ViewController.swift:134-138), the immediate write-back of `measureAndIdentify`'s `(0, "")` result depends on reference aliasing and async timing. The completion overwrites both fields before the point is enqueued, so the model keeps only the resolved point.
- `DataPoint` is a class in the source, but once a point reaches the queue it is never changed again, so the model makes it a value (a datatype). The mutation before enqueueing is the completion's job, outside the model.
- `Guidance.ParseUtteranceRoundTrip`: requires a classification with no digits. Every mesh classification name is digit-free, but the mapping from classifications to names is not part of this model.
