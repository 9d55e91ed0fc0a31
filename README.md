# Y-BIN food / non-food alert core, in Dafny

Y-BIN watches a camera feed. It runs an object detector on every frame and
draws a box and caption around each detected object. Food is drawn in green
and everything else in blue. When some object in a frame is not food, it
draws a "Non-Food Item Detected!" banner and plays an alert sound. A new
sound starts only if no earlier one is still playing.

This project models the decision logic of `app1.py`. Camera, detector,
drawing and audio are left out. The model has four modules:

- `Food` (`food.dfy`): the food allow-list of line 20. `IsFood` is
  `label in food_items`, which is membership in the list by string equality.
  `BoxColour` picks the box and caption colour of line 60.
- `Frame` (`frame.dfy`): the nested per-frame loop of lines 47-71.
  `EvaluateFrame` is the outer loop over the detector's results.
  `EvaluateResult` is the inner loop over one result's boxes. Together they
  build one annotation record per detection and set the frame's non-food
  flag. They are proved against the specification functions `Flatten` (all
  detections in visiting order), `AnnotateAll` and `ScanFlag` (the flag as
  lines 70-71 update it).
- `Alert` (`alert.dfy`): the banner/alert gate of lines 74-77. The script
  asks `threading.active_count() > 1`. That ambient question is abstracted as
  the `busy` field of the class `AlertGate`. `OnVerdict` sets `busy` when it
  starts an alert. Only `AlertFinished` clears it. That method stands for the
  end of the sound thread, which the script never observes itself. The pure
  functions `Decide`, `Next` and `Run` specify the gate over a sequence of
  events. The lemmas about `Run` state suppression, retriggering and "never
  two alerts at once". The class keeps a ghost `History` of events, and
  `Valid()` ties its fields to `Run` over that history.
- `Pipeline` (`pipeline.dfy`): one pass of lines 46-77. It evaluates the
  frame, then asks the gate for the banner and the alert.

Colours are kept as the script writes them, in OpenCV's blue-green-red
order: food `(0,255,0)`, other `(255,0,0)`, banner `(0,0,255)`. A detection is
its label, an integer box and a `real` confidence. The label field is
called `name`, because `label` is a Dafny keyword. The box and confidence
are only carried through to the annotation.

The code differs from the design text of the system in two places, and the
model follows the code:

- The design asks evaluation to reject boxes with `x1 >= x2` or `y1 >= y2`
  as a data error. `app1.py` checks nothing and draws every box, so
  `EvaluateFrame` has no error path.
- The design's alert controller adds a lock and a completion callback.
  `app1.py` has neither. The model's `AlertFinished` is only the abstraction
  of the sound thread ending, as described above.

## Model

| member | source | states |
|---|---|---|
| Food.FoodExactly | app1.py:20 | a label is food if and only if it is one of the eight listed strings, "hand" included |
| Food.HandIsFoodOthersAreNot | app1.py:20 | "hand" is food; unlisted labels such as "knife", "person" and the empty label are not |
| Food.BoxColour | app1.py:60 | the colour is `(0,255,0)` exactly when the label is food, `(255,0,0)` exactly when it is not, and never anything else |
| Frame.Annotate | app1.py:55-67 | a detection's annotation keeps its label, box and confidence unchanged; its colour is the food colour exactly when the label is food |
| Frame.AnnotateAll | app1.py:55-67 | there is one annotation per detection |
| Frame.AnnotateAllAt | app1.py:55-67 | the k-th annotation is the one drawn for the k-th detection, so detection order is kept |
| Frame.FlattenMembers | app1.py:50-55 | a detection is visited by the loops exactly when it belongs to one of the frame's results |
| Frame.FlattenStep | app1.py:50-55 | after one more result, the visited detections are the earlier ones followed by that result's boxes in order |
| Frame.StepOne | app1.py:55-71 | one more detection appends exactly its annotation and applies the non-food test to the flag once more |
| Frame.AnnotateAllAppend | app1.py:55-67 | annotating two stretches of detections in turn gives the annotations of their concatenation |
| Frame.ScanFlagAppend | app1.py:70-71 | scanning two stretches in turn, the second from the flag the first left, gives the flag of their concatenation |
| Frame.ScanFlagMeaning | app1.py:47-71 | the flag after the loop is its initial value or-ed with "some label is not food"; starting from false (line 47), it is exactly "some label is not food", so no earlier frame can affect it |
| Frame.FlagStaysSet | app1.py:70-71 | once the flag is set, no later detection of the frame clears it |
| Frame.NoDetectionsNoFlag | app1.py:47-55 | no results, or results with no boxes, give no detections and leave the flag false |
| Frame.FrameVerdictMeaning | app1.py:47-71 | the annotations of a frame are one per visited detection in order, and the flag scanned from false holds exactly when some box of some result has a non-food label |
| Frame.FlattenNonFood | app1.py:50-71 | "some visited detection is not food" holds exactly when some result has some box whose label is not food |
| Frame.EvaluateResult | app1.py:55-71 | the loop over one result's boxes appends one annotation per box in box order and applies the non-food test to the flag once per box |
| Frame.EvaluateFrame | app1.py:47-71 | the loop produces exactly the annotations of all detections in visiting order, and the flag is true if and only if some box of some result has a non-food label |
| Alert.DecideMeaning | app1.py:74-77 | on one frame the banner follows the flag whatever the gate's state; an alert starts exactly when the frame is flagged and the gate is idle; "finished" leaves the gate idle |
| Alert.RunAppend | app1.py:74-77 | driving the gate over two stretches of events in turn gives the same totals and end state as driving it over their concatenation |
| Alert.BannerOnEveryFlaggedFrame | app1.py:74-75 | the number of banners drawn equals the number of flagged frames, independent of the alert state |
| Alert.BusySuppresses | app1.py:76-77 | while an alert runs and no "finished" event arrives, any number of frames start no alert and the gate stays busy |
| Alert.OneAlertPerEpisode | app1.py:73-77 | from an idle gate, frames with no "finished" event start exactly one alert if some frame is flagged, and none otherwise |
| Alert.AtMostOneInFlight | app1.py:76-77 | alerts started never exceed the "finished" events by more than one, or by any if an alert was already running, so two alerts never overlap |
| Alert.Retrigger | app1.py:76-77 | after the running alert finishes, the next flagged frame starts a new alert |
| Alert.AlertGate.constructor | app1.py:76 | at start-up no alert is running |
| Alert.AlertGate.OnVerdict | app1.py:74-77 | the banner follows the flag; an alert starts exactly when the frame is flagged and the gate was idle; the gate is then busy if it was or if an alert started; an unflagged frame leaves a running alert running |
| Alert.AlertGate.AlertFinished | app1.py:76-77 | the end of the running alert makes the gate idle and changes no count |
| Pipeline.ProcessFrame | app1.py:46-77 | one frame: annotations for every detection, the banner exactly when some label is not food, and an alert exactly when the frame is flagged and the gate was idle |

## Left out

- Video capture, resizing and release (lines 23, 36-41, 97): device I/O.
  End of stream is the `break` of line 38. It is left out with the loop it ends.
- The detector itself and the `model.names` lookup (lines 17, 44, 56). The
  model takes their output as the input: a sequence of results, each a
  sequence of detections with a label already looked up.
- Drawing: `cv2.rectangle`, `cv2.putText`, the caption text with its `:.2f`
  formatting, the colour-space conversion and the pygame surface calls
  (lines 66-67, 75, 80-87). These are rendering. They are modelled only as
  the emitted `Annotation` records and the `Overlay` banner record.
- Sound playback, `play_alert_sound` and its file-existence check (lines
  26-31): platform audio and filesystem. Starting an alert is the boolean
  `startAlert`.
- Threads (lines 4, 76-77): `threading.Thread` and
  `threading.active_count()` are replaced by `AlertGate.busy`. A thread
  unrelated to the sound would also make the count exceed one. The model
  does not capture that, nor any real race between the frame loop and the
  end of the sound.
- The pygame event loop and quit handling (lines 90-95): UI orchestration.
- Floating point: confidences are exact `real` values carried through
  unchanged. The `int` truncation of float box coordinates (line 63) is not
  modelled. Boxes enter the model already as integers.
