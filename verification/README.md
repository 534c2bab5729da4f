# Live video detection pipeline: a Dafny model

This project models the sequential decision logic of `script.py`. That script is a small
desktop application. It reads a network video stream, rotates every frame by a user-chosen
angle, runs an object detector on a thinned-out subset of frames, and shows the latest
annotated frame. When no frame has been annotated yet it shows the latest raw frame instead.

The model is one immutable record holding the `VideoApp` fields the loops share:
- the rotation angle;
- the raw slot `frame` and the processed slot `processed_frame`;
- `frame_count`, `last_frame_time` and `last_process_time`;
- the `running` flag and the capture handle.

Each activity of the application is one pure step over that record:

- `Orientation`: the two rotate buttons (modulo-360 arithmetic in quarter turns) and the
  mapping from an angle to one of OpenCV's three rotations, or to no rotation.
- `Pipeline.CaptureTick`: one iteration of the capture loop. The steps are the rate gate,
  then the read (success or failure), then the rotation, then a latest-wins overwrite of
  the raw slot.
- `Pipeline.ProcessTick`: one iteration of the processing loop. The steps are the counter
  increment and the stride gate, then the time gate, then the empty-slot skip, then the
  width > 480 downscale decision and detection, then publication into the processed slot.
- `Pipeline.UpdateDisplay`: one display refresh. It shows the processed frame, else the
  raw frame, else nothing. It paints only while running and always re-arms after 50 ms.
- `Pipeline.Cleanup` and `Pipeline.StartVideoApp`: the running flag and capture release,
  and the `startswith("http")` gate in front of start-up.
- `Traces`: arbitrary interleavings of these steps, each taken as atomic. This module
  proves the properties that span many steps: the angle stays a quadrant angle, both slots
  are latest-wins, both loops keep their pacing, the stride gate holds, and a stopped
  pipeline stays frozen.

Frames are symbolic terms (`Frames.Frame`): a captured image, or a rotation, resize or
annotation of another frame. The OpenCV calls are therefore uninterpreted transforms that
can still be compared. The frame's width and height and its net quarter turns are tracked,
so "the image is turned clockwise by the angle" and "the detector never sees a frame wider
than 480" can be stated.

Time is an integer count of ticks of 1/30 s. This is the coarsest clock on which both
constants are exact: the capture period of 1/15 s is 2 ticks, and `process_interval` of
0.3 s is 9 ticks. Clock readings, the result of `cap.read()` and the detector's answers
are parameters of the steps.

## Model

| member | source | states |
|---|---|---|
| Orientation.RotateLeft | script.py:66-67 | The result is always in [0, 360) and is congruent to angle - 90 modulo 360. A quadrant angle stays a quadrant angle. |
| Orientation.RotateRight | script.py:69-70 | The result is always in [0, 360) and is congruent to angle + 90 modulo 360. A quadrant angle stays a quadrant angle. |
| Orientation.TurnsStayQuadrant | script.py:66-70 | From 0, 90, 180 or 270, any sequence of left and right presses leaves the angle in {0, 90, 180, 270}. |
| Orientation.TurnsNetEffect | script.py:66-70 | For any sequence of presses, the final angle equals (start + 90 × (rights − lefts)) mod 360. The order of presses does not matter. |
| Orientation.LeftRightInverse | script.py:66-70 | For any angle in [0, 360), left after right and right after left both restore the angle exactly. |
| Orientation.FourRights | script.py:69-70 | Four right presses return any angle in [0, 360) to itself. |
| Orientation.FourLefts | script.py:66-67 | Four left presses return any angle in [0, 360) to itself. |
| Orientation.RotateFrame | script.py:72-79 | The frame is rotated exactly when the angle is 90, 180 or 270, and is then turned clockwise by angle/90 quarter turns. Every other angle, 0 included, returns the frame unchanged. At 90 and 270 the width and height swap. |
| Orientation.TurnRightRotatesImage | script.py:69-79 | From a quadrant angle, a right press makes every later captured image come out one more quarter turn clockwise. |
| Orientation.TurnLeftRotatesImage | script.py:66-79 | From a quadrant angle, a left press makes every later captured image come out one quarter turn counter-clockwise. |
| Frames.PrepareForInference | script.py:113-116 | A frame is resized exactly when it is wider than 480, and then to width 480. The result is never wider than 480 and keeps the frame's origin and orientation. |
| Frames.Annotate | script.py:120-129 | The annotated frame carries exactly the given detections, in order, drawn onto the given frame. It keeps the frame's size, orientation and origin. |
| Pipeline.Initial | script.py:17-37 | A new app is running with its capture open. Both slots are empty, the counter is 0, the angle is 0 and both clocks are 0. |
| Pipeline.TurnLeft | script.py:66-67 | A left press changes only the angle. The new angle is in [0, 360), and a right press afterwards gives back the old angle modulo 360. |
| Pipeline.TurnRight | script.py:69-70 | A right press changes only the angle. The new angle is in [0, 360), and a left press afterwards gives back the old angle modulo 360. |
| Pipeline.CaptureTick | script.py:81-94 | Not running: the loop has exited. Within one capture period of the last accepted frame: rate-limited and the state is unchanged. A failed read or a missing frame: the state is unchanged. Otherwise the raw slot is overwritten with the frame rotated by the current angle, `last_frame_time` becomes now, and nothing else changes. Each outcome is stated as an if-and-only-if over its conditions. |
| Pipeline.CaptureGateIgnoresSource | script.py:83-88 | When the iteration does not read, because it has stopped or is rate-limited, it behaves the same whatever the source would have returned. |
| Pipeline.Infer | script.py:111-129 | The published frame is the annotation of the possibly downscaled raw frame, with the detector's answer for that downscaled input. It is at most 480 wide and keeps the raw frame's origin and orientation. |
| Pipeline.ProcessTick | script.py:96-134 | Each outcome is stated as an if-and-only-if over its conditions. Not running: nothing changes. Otherwise the counter is incremented before any gate. A stride, time or empty-slot skip changes nothing else. A completed iteration publishes the annotated frame derived from the current raw frame, records `last_process_time` = now, which is at least `process_interval` after the previous value, and never changes the raw slot. |
| Pipeline.UpdateDisplay | script.py:136-155 | Always re-arms after 50 ms. Not running: paints nothing. While running: paints the processed frame if present, else the raw frame, and paints something exactly when one of them is present. |
| Pipeline.Cleanup | script.py:157-160 | `running` is cleared. The capture is released if there is one. Nothing else changes. |
| Pipeline.StartVideoApp | script.py:167-174 | An app is started exactly when the URL's first four characters are "http", and it starts in the initial state. Otherwise nothing is started. |
| Traces.RunKeepsQuadrant | script.py:22 | From a quadrant angle, every interleaving of presses, captures, processing, refreshes and cleanup keeps the angle in {0, 90, 180, 270}. |
| Traces.StepRawEffect | script.py:88-93 | A storing capture writes the raw slot and `last_frame_time`, at least one capture period after the previous accepted frame. Every other event leaves both alone. |
| Traces.StepProcessedEffect | script.py:103-134 | A completed processing iteration writes the processed slot and `last_process_time`, at least `process_interval` after the previous one. Every other event leaves both alone. |
| Traces.RawSlotLatestWins | script.py:91-92 | After any run, the raw slot holds the frame of the last storing capture, with earlier ones lost. If no capture stored a frame, it holds its old content. |
| Traces.CaptureRateBound | script.py:83-93 | Accepted captures in any run are at least one capture period (1/15 s) apart, and the first is at least one period after the previous one. `last_frame_time` ends as the time of the last one. |
| Traces.ProcessedSlotLatestWins | script.py:131-132 | After any run, the processed slot holds the last published annotated frame. If none was published, it holds its old content. |
| Traces.InferenceSpacing | script.py:103-134 | Completed inferences in any run are at least `process_interval` apart, and the first is that far after the last one recorded. `last_process_time` ends as the time of the last one. |
| Traces.DisplayShowsLatest | script.py:136-148 | After any run that is still running, the display paints the last published annotated frame if there was one. Failing that it paints the processed slot's earlier content, then the last stored raw frame, then the raw slot's earlier content. |
| Traces.StoppedRunIsFrozen | script.py:82-98 | Once `running` is false, no iteration that starts later changes the slots, the counter or the clocks. Every later refresh paints nothing and re-arms. |
| Traces.StrideGate | script.py:98-101 | While running, iteration i of the processing loop can publish only if frame_count + i + 1 is a multiple of 4. |
| Traces.OnlyEveryFourthIteration | script.py:25-26 | From a counter of 0, only iterations 4, 8, 12, … can reach inference. |
| Traces.StepCounter | script.py:97-98 | Only a processing iteration of a running app changes `frame_count`, and by exactly one. Presses, captures, refreshes and cleanup leave it alone. |
| Traces.RunCounter | script.py:97-98 | Over any interleaving, `frame_count` grows by exactly the number of processing iterations that ran. |
| Traces.StrideAcrossRun | script.py:98-101 | After any interleaving of events, a processing iteration reaches inference only if the start count plus all processing iterations run so far, this one included, is a multiple of 4. |
| Traces.StartedAppKeepsQuadrant | script.py:167-174 | Any app that the URL gate starts keeps a quadrant angle through any run. |
| Traces.FirstAnnotationReachesDisplay | script.py:81-155 | A started app captures one 640x480 frame, then runs four processing iterations. Only the fourth reaches inference. The next refresh shows that frame downscaled to 480x360 and annotated. |

## Left out

- Traces.StoppedRunIsFrozen: both loops test `running` only at the top of an iteration (script.py:82, 97). In the program, an iteration already under way when `cleanup` runs still finishes. A processing iteration inside the detector call still publishes and sets `last_process_time` (script.py:118-134). A capture blocked in `cap.read()` can still store a frame (script.py:88-93). Because each iteration is one atomic step here, the model places such an iteration before the cleanup. So this one-iteration gap after the flag is cleared is not shown.
- Frames.Annotate: a detector answer with no boxes leaves the pixels unchanged (script.py:120-129). The model still produces a distinct `Annotated` term with an empty detection list. Pixel equality of frames is not modelled.
- Detector errors: the detector call (script.py:118) has no exception handler, so an exception would end the processing thread. The model has no failed-detection path.
- End of stream: the capture loop never exits on a failed read (script.py:88-94). It retries until `running` is cleared, so the model has no end-of-stream exit.
- Shutdown: shutdown is only `running = False` plus `cap.release()` (script.py:157-160). There is no join of the two threads and no separate stopping state.
- Threads, locks, `daemon` flags and the interleaving inside a loop body. Each loop iteration is one atomic step. `Traces` allows any order of whole steps but not a step interrupted halfway.
- `time.sleep` calls: they only delay and change no state.
- Floating-point time. Clocks are integer ticks of 1/30 s, and `time.time()` readings are parameters, not a real clock.
- `cv2.VideoCapture`, `cap.set` and `cap.read`. The read result is a parameter. The handle is tracked only as open, released or absent (`hasattr(self, 'cap')`).
- `cv2.rotate`, `cv2.resize`, `cv2.cvtColor`, `cv2.rectangle` and `cv2.putText` are uninterpreted frame constructors. The BGR-to-RGB conversion before painting and the caption text `"name conf"` are not modelled.
- Frames.ScaledHeight: the height after downscaling rounds half up on integers. OpenCV rounds `height * (480 / width)` in floating point, which can differ at exact ties. Only the width > 480 decision and the resulting width of 480 are modelled faithfully.
- YOLO model loading and inference. The detector is a function parameter from a frame to its detections, with the confidence threshold 0.4 fixed inside it. Box coordinates are integers, with no float truncation, and confidences are not carried.
- Tkinter: the widgets, `root.after` scheduling (kept only as the 50 ms re-arm delay), `stop`, `quit`, `destroy` and the URL entry window. Only the `startswith("http")` predicate is modelled.
