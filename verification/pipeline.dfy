/** The shared state of a running VideoApp and one atomic step for each of
    its activities: an iteration of the capture loop, an iteration of the
    processing loop, one display refresh, cleanup, and the URL check that
    decides whether an app is started at all (script.py:10-176).

    Time is an integer count of ticks of 1/30 s, the coarsest clock on which
    both timing constants of the source are exact. Every clock reading a
    step needs is a parameter, and so is the result of the frame read and
    the detector. */
module Pipeline {
  import opened Wrappers
  import opened Frames
  import opened Orientation

  const TicksPerSecond: int := 30
  /** `target_fps`: the capture loop accepts at most 15 frames a second. */
  const TargetFps: int := 15
  /** `1.0 / target_fps` seconds, in ticks. */
  const CapturePeriod: int := TicksPerSecond / TargetFps
  /** `process_interval` = 0.3 s, in ticks. */
  const ProcessInterval: int := 3 * TicksPerSecond / 10
  /** `skip_frames`: only every fourth processing iteration may run the detector. */
  const SkipFrames: nat := 4
  /** Delay, in milliseconds, before the display refresh fires again. */
  const DisplayRefreshMs: nat := 50

  /** What `hasattr(self, 'cap')` and `cap.release()` observe of the capture. */
  datatype CaptureHandle = NoCapture | Open | Released

  /** The instance fields of VideoApp the pipeline's loops read and write. */
  datatype PipelineState = PipelineState(
    rotationAngle: int,
    frame: Option<Frame>,            // raw slot, written by capture
    processedFrame: Option<Frame>,   // processed slot, written by processing
    frameCount: nat,
    lastFrameTime: int,
    lastProcessTime: int,
    running: bool,
    capture: CaptureHandle)

  /** The state `VideoApp.__init__` leaves behind: the capture opened,
      both slots empty, both clocks at zero, running. */
  function Initial(): (s: PipelineState)
    ensures s.running && s.capture == Open && s.rotationAngle == 0
    ensures s.frame.None? && s.processedFrame.None? && s.frameCount == 0
    ensures s.lastFrameTime == 0 && s.lastProcessTime == 0
  {
    PipelineState(0, None, None, 0, 0, 0, true, Open)
  }

  /** The button handlers; nothing but the angle changes. */
  function TurnLeft(s: PipelineState): (r: PipelineState)
    ensures r == s.(rotationAngle := r.rotationAngle)
    ensures 0 <= r.rotationAngle < FullTurn
    ensures RotateRight(r.rotationAngle) == s.rotationAngle % FullTurn
  {
    s.(rotationAngle := RotateLeft(s.rotationAngle))
  }

  function TurnRight(s: PipelineState): (r: PipelineState)
    ensures r == s.(rotationAngle := r.rotationAngle)
    ensures 0 <= r.rotationAngle < FullTurn
    ensures RotateLeft(r.rotationAngle) == s.rotationAngle % FullTurn
  {
    s.(rotationAngle := RotateRight(s.rotationAngle))
  }

  // ---------------------------------------------------------------------
  // Capture loop
  // ---------------------------------------------------------------------

  /** What `cap.read()` returned: the success flag and the frame or None. */
  datatype ReadResult = ReadResult(ok: bool, image: Option<Frame>)

  datatype CaptureOutcome =
    | CaptureStopped   // `running` is false: the loop has exited
    | RateLimited      // too soon after the last accepted frame; no read
    | ReadFailed       // read attempted, no usable frame
    | FrameStored      // rotated frame published into the raw slot

  datatype CaptureStep = CaptureStep(state: PipelineState, outcome: CaptureOutcome)

  /** True when the capture loop calls `cap.read()` on this iteration. */
  predicate ReadsSource(o: CaptureOutcome)
  {
    o == ReadFailed || o == FrameStored
  }

  /** One iteration of `capture_frames` at clock reading `now`; `read` is
      what the source would return if asked. */
  function CaptureTick(s: PipelineState, now: int, read: ReadResult): (r: CaptureStep)
    ensures r.outcome == CaptureStopped <==> !s.running
    ensures r.outcome == RateLimited <==> s.running && now - s.lastFrameTime < CapturePeriod
    ensures r.outcome == FrameStored <==>
              s.running && now - s.lastFrameTime >= CapturePeriod && read.ok && read.image.Some?
    ensures r.outcome != FrameStored ==> r.state == s
    ensures r.outcome == FrameStored ==>
              && r.state.frame == Some(RotateFrame(s.rotationAngle, read.image.value))
              && r.state.lastFrameTime == now
              && r.state == s.(frame := r.state.frame, lastFrameTime := now)
  {
    if !s.running then CaptureStep(s, CaptureStopped)
    else if now - s.lastFrameTime < CapturePeriod then CaptureStep(s, RateLimited)
    else if read.ok && read.image.Some? then
      var rotated := RotateFrame(s.rotationAngle, read.image.value);
      CaptureStep(s.(frame := Some(rotated), lastFrameTime := now), FrameStored)
    else CaptureStep(s, ReadFailed)
  }

  /** The rate gate decides before the source is consulted: an iteration
      that does not read behaves the same whatever the source would have
      returned. */
  lemma CaptureGateIgnoresSource(s: PipelineState, now: int, read: ReadResult, other: ReadResult)
    requires !ReadsSource(CaptureTick(s, now, read).outcome)
    ensures CaptureTick(s, now, other).outcome == CaptureTick(s, now, read).outcome
    ensures CaptureTick(s, now, other).state == s
  {
  }

  // ---------------------------------------------------------------------
  // Processing loop
  // ---------------------------------------------------------------------

  datatype ProcessOutcome =
    | ProcessStopped   // `running` is false: the loop has exited
    | StrideSkipped    // frame_count not a multiple of skip_frames
    | TooSoon          // less than process_interval since the last inference
    | NoFrame          // raw slot empty
    | Published        // annotated frame published into the processed slot

  datatype ProcessStep = ProcessStep(state: PipelineState, outcome: ProcessOutcome)

  /** The frame the detector sees for a raw frame, and the annotated frame
      it yields. */
  function Infer(raw: Frame, detect: Frame -> seq<Detection>): (r: Frame)
    ensures r.Annotated? && r.base == PrepareForInference(raw)
    ensures r.detections == detect(PrepareForInference(raw))
    ensures Width(r) <= MaxInferenceWidth
    ensures Origin(r) == Origin(raw) && QuarterTurns(r) == QuarterTurns(raw)
  {
    var input := PrepareForInference(raw);
    Annotate(input, detect(input))
  }

  /** One iteration of `process_frames` at clock reading `now`; `detect`
      is the model's answer (at confidence 0.4) for a given input frame. */
  function ProcessTick(s: PipelineState, now: int, detect: Frame -> seq<Detection>): (r: ProcessStep)
    ensures !s.running ==> r == ProcessStep(s, ProcessStopped)
    ensures s.running ==> r.state.frameCount == s.frameCount + 1
    ensures r.outcome == StrideSkipped <==> s.running && (s.frameCount + 1) % SkipFrames != 0
    ensures r.outcome == TooSoon <==>
              s.running && (s.frameCount + 1) % SkipFrames == 0 && now - s.lastProcessTime < ProcessInterval
    ensures r.outcome == NoFrame <==>
              s.running && (s.frameCount + 1) % SkipFrames == 0 && now - s.lastProcessTime >= ProcessInterval
              && s.frame.None?
    ensures r.outcome == Published <==>
              s.running && (s.frameCount + 1) % SkipFrames == 0 && now - s.lastProcessTime >= ProcessInterval
              && s.frame.Some?
    // Gates and an empty slot change nothing but the counter.
    ensures r.outcome != Published ==> r.state == s.(frameCount := r.state.frameCount)
    // A completed iteration publishes a frame derived from the current raw
    // frame and records the clock reading taken before inference.
    ensures r.outcome == Published ==>
              && r.state.processedFrame == Some(Infer(s.frame.value, detect))
              && r.state.lastProcessTime == now
              && now - s.lastProcessTime >= ProcessInterval
              && r.state == s.(frameCount := r.state.frameCount, processedFrame := r.state.processedFrame,
                               lastProcessTime := now)
    ensures r.state.frame == s.frame
  {
    if !s.running then ProcessStep(s, ProcessStopped)
    else
      var counted := s.(frameCount := s.frameCount + 1);
      if counted.frameCount % SkipFrames != 0 then ProcessStep(counted, StrideSkipped)
      else if now - counted.lastProcessTime < ProcessInterval then ProcessStep(counted, TooSoon)
      else match counted.frame
        case None => ProcessStep(counted, NoFrame)
        case Some(raw) =>
          ProcessStep(counted.(processedFrame := Some(Infer(raw, detect)), lastProcessTime := now), Published)
  }

  // ---------------------------------------------------------------------
  // Display refresh
  // ---------------------------------------------------------------------

  /** What one `update_display` call does: the frame handed to the label
      (if any) and the delay after which it runs again. */
  datatype DisplayTick = DisplayTick(paint: Option<Frame>, rearmMs: nat)

  /** One `update_display` call. It only reads the state, so neither slot
      can change. */
  function UpdateDisplay(s: PipelineState): (r: DisplayTick)
    ensures r.rearmMs == DisplayRefreshMs
    ensures !s.running ==> r.paint.None?
    ensures s.running && s.processedFrame.Some? ==> r.paint == s.processedFrame
    ensures s.running && s.processedFrame.None? ==> r.paint == s.frame
    ensures r.paint.Some? <==> s.running && (s.processedFrame.Some? || s.frame.Some?)
  {
    if s.running then DisplayTick(s.processedFrame.OrElse(s.frame), DisplayRefreshMs)
    else DisplayTick(None, DisplayRefreshMs)
  }

  // ---------------------------------------------------------------------
  // Lifecycle
  // ---------------------------------------------------------------------

  /** `cleanup`: clears the running flag and releases the capture when
      there is one; nothing else changes. */
  function Cleanup(s: PipelineState): (r: PipelineState)
    ensures !r.running
    ensures r.capture == (if s.capture == NoCapture then NoCapture else Released)
    ensures r == s.(running := false, capture := r.capture)
  {
    s.(running := false, capture := if s.capture.NoCapture? then NoCapture else Released)
  }

  /** Python's `str.startswith`. */
  predicate StartsWith(s: string, prefix: string)
  {
    |prefix| <= |s| && s[..|prefix|] == prefix
  }

  /** `start_video_app`: a URL not starting with "http" starts nothing;
      any other URL starts an app in its initial state. */
  function StartVideoApp(url: string): (r: Option<PipelineState>)
    ensures r.Some? <==> |url| >= 4 && url[0] == 'h' && url[1] == 't' && url[2] == 't' && url[3] == 'p'
    ensures r.Some? ==> r.value == Initial()
  {
    if StartsWith(url, "http") then Some(Initial()) else None
  }
}
