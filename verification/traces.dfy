/** Runs of the pipeline: any interleaving of button presses, capture
    iterations, processing iterations, display refreshes and cleanup, each
    taken as one atomic step on the shared state, and what such runs
    guarantee about the angle, the two slots and the pacing of both loops. */
module Traces {
  import opened Wrappers
  import opened Frames
  import opened Orientation
  import opened Pipeline

  datatype Event =
    | PressLeft
    | PressRight
    | CaptureIteration(now: int, read: ReadResult)
    | ProcessIteration(now: int)
    | DisplayRefresh
    | Close

  /** The state after one event. A display refresh only reads the state. */
  function Step(s: PipelineState, e: Event, detect: Frame -> seq<Detection>): PipelineState
  {
    match e
    case PressLeft => TurnLeft(s)
    case PressRight => TurnRight(s)
    case CaptureIteration(now, read) => CaptureTick(s, now, read).state
    case ProcessIteration(now) => ProcessTick(s, now, detect).state
    case DisplayRefresh => s
    case Close => Cleanup(s)
  }

  /** The state after the events, in order. */
  function Run(s: PipelineState, events: seq<Event>, detect: Frame -> seq<Detection>): PipelineState
    decreases |events|
  {
    if |events| == 0 then s else Run(Step(s, events[0], detect), events[1..], detect)
  }

  /** The raw-slot write one event performs, if any: clock reading and frame. */
  function RawWriteOf(s: PipelineState, e: Event): Option<(int, Frame)>
  {
    if e.CaptureIteration? && CaptureTick(s, e.now, e.read).outcome == FrameStored
    then Some((e.now, CaptureTick(s, e.now, e.read).state.frame.value))
    else None
  }

  /** The processed-slot write one event performs, if any. */
  function ProcessedWriteOf(s: PipelineState, e: Event, detect: Frame -> seq<Detection>): Option<(int, Frame)>
  {
    if e.ProcessIteration? && ProcessTick(s, e.now, detect).outcome == Published
    then Some((e.now, ProcessTick(s, e.now, detect).state.processedFrame.value))
    else None
  }

  function AsSeq<T>(o: Option<T>): seq<T>
  {
    match o
    case Some(v) => [v]
    case None => []
  }

  /** Every write into the raw slot during the run, in order. */
  function RawWrites(s: PipelineState, events: seq<Event>, detect: Frame -> seq<Detection>): seq<(int, Frame)>
    decreases |events|
  {
    if |events| == 0 then []
    else AsSeq(RawWriteOf(s, events[0])) + RawWrites(Step(s, events[0], detect), events[1..], detect)
  }

  /** Every write into the processed slot during the run, in order. */
  function ProcessedWrites(s: PipelineState, events: seq<Event>, detect: Frame -> seq<Detection>): seq<(int, Frame)>
    decreases |events|
  {
    if |events| == 0 then []
    else AsSeq(ProcessedWriteOf(s, events[0], detect)) + ProcessedWrites(Step(s, events[0], detect), events[1..], detect)
  }

  /** Consecutive writes are at least `gap` ticks apart. */
  predicate Spaced(writes: seq<(int, Frame)>, gap: int)
  {
    forall i :: 0 <= i < |writes| - 1 ==> writes[i].0 + gap <= writes[i + 1].0
  }

  /** The angle stays one of 0, 90, 180, 270 whatever happens. */
  lemma {:induction false} RunKeepsQuadrant(s: PipelineState, events: seq<Event>, detect: Frame -> seq<Detection>)
    requires IsQuadrant(s.rotationAngle)
    ensures IsQuadrant(Run(s, events, detect).rotationAngle)
    decreases |events|
  {
    if |events| > 0 {
      RunKeepsQuadrant(Step(s, events[0], detect), events[1..], detect);
    }
  }

  /** The raw-slot effect of one event: a capture that stores a frame
      writes it and its clock reading, which is at least one capture period
      after the previous accepted one; every other event leaves both alone. */
  lemma StepRawEffect(s: PipelineState, e: Event, detect: Frame -> seq<Detection>)
    ensures var next := Step(s, e, detect);
            match RawWriteOf(s, e)
            case Some(w) =>
              next.frame == Some(w.1) && next.lastFrameTime == w.0 && s.lastFrameTime + CapturePeriod <= w.0
            case None =>
              next.frame == s.frame && next.lastFrameTime == s.lastFrameTime
  {
  }

  /** The processed-slot effect of one event, in the same shape. */
  lemma StepProcessedEffect(s: PipelineState, e: Event, detect: Frame -> seq<Detection>)
    ensures var next := Step(s, e, detect);
            match ProcessedWriteOf(s, e, detect)
            case Some(w) =>
              next.processedFrame == Some(w.1) && next.lastProcessTime == w.0
              && s.lastProcessTime + ProcessInterval <= w.0
            case None =>
              next.processedFrame == s.processedFrame && next.lastProcessTime == s.lastProcessTime
  {
  }

  /** Prepending one write that lies at least `gap` before the first of an
      already spaced sequence keeps it spaced. */
  lemma ConsSpaced(w: (int, Frame), rest: seq<(int, Frame)>, gap: int)
    requires Spaced(rest, gap)
    requires |rest| > 0 ==> w.0 + gap <= rest[0].0
    ensures Spaced([w] + rest, gap)
  {
    var ws := [w] + rest;
    forall i | 0 <= i < |ws| - 1
      ensures ws[i].0 + gap <= ws[i + 1].0
    {
      if i > 0 {
        assert ws[i] == rest[i - 1] && ws[i + 1] == rest[i];
      }
    }
  }

  /** Latest wins for the raw slot: after any run it holds the frame of the
      last capture that stored one (earlier ones are gone), or its old
      content when no capture stored a frame; nothing else writes it. */
  lemma {:induction false} RawSlotLatestWins(s: PipelineState, events: seq<Event>, detect: Frame -> seq<Detection>)
    ensures var ws := RawWrites(s, events, detect);
            var r := Run(s, events, detect);
            && (|ws| == 0 ==> r.frame == s.frame)
            && (|ws| > 0 ==> r.frame == Some(ws[|ws| - 1].1))
    decreases |events|
  {
    if |events| > 0 {
      var next := Step(s, events[0], detect);
      StepRawEffect(s, events[0], detect);
      RawSlotLatestWins(next, events[1..], detect);
      var rest := RawWrites(next, events[1..], detect);
      assert Run(s, events, detect) == Run(next, events[1..], detect);
      match RawWriteOf(s, events[0])
      case Some(w) =>
        assert RawWrites(s, events, detect) == [w] + rest;
      case None =>
        assert RawWrites(s, events, detect) == rest;
    }
  }

  /** The capture rate bound: accepted captures are at least one capture
      period apart (so at most `target_fps` a second), the first at least
      one period after the last one before the run, and `last_frame_time`
      ends as the clock reading of the last accepted capture. */
  lemma {:induction false} CaptureRateBound(s: PipelineState, events: seq<Event>, detect: Frame -> seq<Detection>)
    ensures var ws := RawWrites(s, events, detect);
            var r := Run(s, events, detect);
            && (|ws| == 0 ==> r.lastFrameTime == s.lastFrameTime)
            && (|ws| > 0 ==> r.lastFrameTime == ws[|ws| - 1].0)
            && (|ws| > 0 ==> s.lastFrameTime + CapturePeriod <= ws[0].0)
            && Spaced(ws, CapturePeriod)
    decreases |events|
  {
    if |events| > 0 {
      var next := Step(s, events[0], detect);
      StepRawEffect(s, events[0], detect);
      CaptureRateBound(next, events[1..], detect);
      var rest := RawWrites(next, events[1..], detect);
      assert Run(s, events, detect) == Run(next, events[1..], detect);
      match RawWriteOf(s, events[0])
      case Some(w) =>
        assert RawWrites(s, events, detect) == [w] + rest;
        ConsSpaced(w, rest, CapturePeriod);
      case None =>
        assert RawWrites(s, events, detect) == rest;
    }
  }

  /** Latest wins for the processed slot: after any run it holds the last
      annotated frame published, or its old content when none was; nothing
      else writes it. */
  lemma {:induction false} ProcessedSlotLatestWins(s: PipelineState, events: seq<Event>, detect: Frame -> seq<Detection>)
    ensures var ws := ProcessedWrites(s, events, detect);
            var r := Run(s, events, detect);
            && (|ws| == 0 ==> r.processedFrame == s.processedFrame)
            && (|ws| > 0 ==> r.processedFrame == Some(ws[|ws| - 1].1))
    decreases |events|
  {
    if |events| > 0 {
      var next := Step(s, events[0], detect);
      StepProcessedEffect(s, events[0], detect);
      ProcessedSlotLatestWins(next, events[1..], detect);
      var rest := ProcessedWrites(next, events[1..], detect);
      assert Run(s, events, detect) == Run(next, events[1..], detect);
      match ProcessedWriteOf(s, events[0], detect)
      case Some(w) =>
        assert ProcessedWrites(s, events, detect) == [w] + rest;
      case None =>
        assert ProcessedWrites(s, events, detect) == rest;
    }
  }

  /** The time gate across any run: completed inferences are at least
      `process_interval` apart, the first at least that long after the last
      one recorded before the run, and `last_process_time` ends as the clock
      reading of the last one. */
  lemma {:induction false} InferenceSpacing(s: PipelineState, events: seq<Event>, detect: Frame -> seq<Detection>)
    ensures var ws := ProcessedWrites(s, events, detect);
            var r := Run(s, events, detect);
            && (|ws| == 0 ==> r.lastProcessTime == s.lastProcessTime)
            && (|ws| > 0 ==> r.lastProcessTime == ws[|ws| - 1].0)
            && (|ws| > 0 ==> s.lastProcessTime + ProcessInterval <= ws[0].0)
            && Spaced(ws, ProcessInterval)
    decreases |events|
  {
    if |events| > 0 {
      var next := Step(s, events[0], detect);
      StepProcessedEffect(s, events[0], detect);
      InferenceSpacing(next, events[1..], detect);
      var rest := ProcessedWrites(next, events[1..], detect);
      assert Run(s, events, detect) == Run(next, events[1..], detect);
      match ProcessedWriteOf(s, events[0], detect)
      case Some(w) =>
        assert ProcessedWrites(s, events, detect) == [w] + rest;
        ConsSpaced(w, rest, ProcessInterval);
      case None =>
        assert ProcessedWrites(s, events, detect) == rest;
    }
  }

  /** What the display shows after any run that leaves the app running: the
      last published annotated frame if there has been one (or the processed
      slot's earlier content), otherwise the latest raw frame. */
  lemma DisplayShowsLatest(s: PipelineState, events: seq<Event>, detect: Frame -> seq<Detection>)
    requires Run(s, events, detect).running
    ensures var ps := ProcessedWrites(s, events, detect);
            var rs := RawWrites(s, events, detect);
            var shown := UpdateDisplay(Run(s, events, detect)).paint;
            && (|ps| > 0 ==> shown == Some(ps[|ps| - 1].1))
            && (|ps| == 0 && s.processedFrame.Some? ==> shown == s.processedFrame)
            && (|ps| == 0 && s.processedFrame.None? && |rs| > 0 ==> shown == Some(rs[|rs| - 1].1))
            && (|ps| == 0 && s.processedFrame.None? && |rs| == 0 ==> shown == s.frame)
  {
    RawSlotLatestWins(s, events, detect);
    ProcessedSlotLatestWins(s, events, detect);
  }

  /** Cooperative cancellation, at the granularity of whole iterations:
      once `running` is cleared, no iteration that starts afterwards touches
      the slots, the counter or the clocks, and the display paints nothing
      while still re-arming. (An iteration already under way when the flag
      is cleared is one atomic step here, taken before the cleanup.) */
  lemma {:induction false} StoppedRunIsFrozen(s: PipelineState, events: seq<Event>, detect: Frame -> seq<Detection>)
    requires !s.running
    ensures var r := Run(s, events, detect);
            && !r.running
            && r.frame == s.frame && r.processedFrame == s.processedFrame
            && r.frameCount == s.frameCount
            && r.lastFrameTime == s.lastFrameTime && r.lastProcessTime == s.lastProcessTime
            && UpdateDisplay(r) == DisplayTick(None, DisplayRefreshMs)
    decreases |events|
  {
    if |events| > 0 {
      StoppedRunIsFrozen(Step(s, events[0], detect), events[1..], detect);
    }
  }

  /** Outcomes of consecutive processing iterations at the given clock readings. */
  function ProcessLoop(s: PipelineState, nows: seq<int>, detect: Frame -> seq<Detection>): (r: seq<ProcessOutcome>)
    ensures |r| == |nows|
    decreases |nows|
  {
    if |nows| == 0 then []
    else
      var step := ProcessTick(s, nows[0], detect);
      [step.outcome] + ProcessLoop(step.state, nows[1..], detect)
  }

  /** The stride gate: while running, iteration number i (counting from 0)
      can reach inference only when the counter it produces,
      frame_count + i + 1, is a multiple of `skip_frames`. */
  lemma {:induction false} StrideGate(s: PipelineState, nows: seq<int>, detect: Frame -> seq<Detection>, i: nat)
    requires s.running && i < |nows|
    requires ProcessLoop(s, nows, detect)[i] == Published
    ensures (s.frameCount + i + 1) % SkipFrames == 0
    decreases i
  {
    var step := ProcessTick(s, nows[0], detect);
    if i > 0 {
      assert ProcessLoop(step.state, nows[1..], detect)[i - 1] == Published;
      StrideGate(step.state, nows[1..], detect, i - 1);
    }
  }

  /** From a counter of zero (a freshly started app) only the 4th, 8th, 12th, ... processing
      iteration can run the detector. */
  lemma OnlyEveryFourthIteration(s: PipelineState, nows: seq<int>, detect: Frame -> seq<Detection>, i: nat)
    requires s.running && s.frameCount == 0 && i < |nows|
    ensures ProcessLoop(s, nows, detect)[i] == Published ==> (i + 1) % SkipFrames == 0
  {
    if ProcessLoop(s, nows, detect)[i] == Published {
      StrideGate(s, nows, detect, i);
    }
  }

  /** Processing iterations that actually run (the loop has not exited),
      i.e. the increments of `frame_count` during the run. */
  function CountedIterations(s: PipelineState, events: seq<Event>, detect: Frame -> seq<Detection>): nat
    decreases |events|
  {
    if |events| == 0 then 0
    else
      (if events[0].ProcessIteration? && s.running then 1 else 0)
      + CountedIterations(Step(s, events[0], detect), events[1..], detect)
  }

  /** Only a processing iteration of a running app moves the counter, and
      by exactly one; presses, captures, refreshes and cleanup leave it. */
  lemma StepCounter(s: PipelineState, e: Event, detect: Frame -> seq<Detection>)
    ensures Step(s, e, detect).frameCount
            == if e.ProcessIteration? && s.running then s.frameCount + 1 else s.frameCount
  {
  }

  /** Over any interleaving, `frame_count` grows by the number of processing
      iterations that ran. */
  lemma {:induction false} RunCounter(s: PipelineState, events: seq<Event>, detect: Frame -> seq<Detection>)
    ensures Run(s, events, detect).frameCount == s.frameCount + CountedIterations(s, events, detect)
    decreases |events|
  {
    if |events| > 0 {
      StepCounter(s, events[0], detect);
      RunCounter(Step(s, events[0], detect), events[1..], detect);
    }
  }

  /** The stride gate over any interleaving: when a processing iteration
      that follows an arbitrary run `prefix` reaches inference, the counter
      it produces (the start count, plus every processing iteration that ran
      in the prefix, plus this one) is a multiple of `skip_frames`. */
  lemma StrideAcrossRun(s: PipelineState, prefix: seq<Event>, now: int, detect: Frame -> seq<Detection>)
    requires ProcessTick(Run(s, prefix, detect), now, detect).outcome == Published
    ensures (s.frameCount + CountedIterations(s, prefix, detect) + 1) % SkipFrames == 0
  {
    RunCounter(s, prefix, detect);
  }

  /** The source's start-up path: a valid URL starts an app whose angle
      stays a quadrant angle through any run. */
  lemma StartedAppKeepsQuadrant(url: string, events: seq<Event>, detect: Frame -> seq<Detection>)
    requires StartVideoApp(url).Some?
    ensures IsQuadrant(Run(StartVideoApp(url).value, events, detect).rotationAngle)
  {
    RunKeepsQuadrant(StartVideoApp(url).value, events, detect);
  }

  /** A started app that captures one 640x480 frame and then runs four
      processing iterations shows, on the next refresh, that frame
      downscaled to 480x360 and annotated with the detector's answer for
      the downscaled image; the three iterations before it were stride
      skips. */
  lemma FirstAnnotationReachesDisplay(detect: Frame -> seq<Detection>)
    ensures var source := Captured(1, 640, 480);
            var events := [CaptureIteration(10, ReadResult(true, Some(source))),
                           ProcessIteration(11), ProcessIteration(12), ProcessIteration(13), ProcessIteration(14)];
            var input := Resized(source, 480, 360);
            && UpdateDisplay(Run(Initial(), events, detect)).paint == Some(Annotated(input, detect(input)))
            && ProcessedWrites(Initial(), events, detect) == [(14, Annotated(input, detect(input)))]
  {
    var source := Captured(1, 640, 480);
    var s1 := Step(Initial(), CaptureIteration(10, ReadResult(true, Some(source))), detect);
    assert s1.frame == Some(source) && s1.frameCount == 0;
    var s2 := Step(s1, ProcessIteration(11), detect);
    var s3 := Step(s2, ProcessIteration(12), detect);
    var s4 := Step(s3, ProcessIteration(13), detect);
    assert s4.frameCount == 3 && s4.frame == Some(source) && s4.lastProcessTime == 0;
    assert ScaledHeight(640, 480) == 360;
    var input := Resized(source, 480, 360);
    var s5 := Step(s4, ProcessIteration(14), detect);
    assert s5.processedFrame == Some(Annotated(input, detect(input))) && s5.running;
    var events := [CaptureIteration(10, ReadResult(true, Some(source))),
                   ProcessIteration(11), ProcessIteration(12), ProcessIteration(13), ProcessIteration(14)];
    assert Run(s4, events[4..], detect) == s5;
    assert Run(s3, events[3..], detect) == s5;
    assert Run(s2, events[2..], detect) == s5;
    assert Run(s1, events[1..], detect) == s5;
    assert ProcessedWrites(s4, events[4..], detect) == [(14, Annotated(input, detect(input)))];
    assert ProcessedWrites(s3, events[3..], detect) == [(14, Annotated(input, detect(input)))];
    assert ProcessedWrites(s2, events[2..], detect) == [(14, Annotated(input, detect(input)))];
    assert ProcessedWrites(s1, events[1..], detect) == [(14, Annotated(input, detect(input)))];
  }
}
