/** Frames as the pipeline sees them: opaque images whose only observable
    attributes are their dimensions and the chain of transforms that produced
    them. The OpenCV calls of script.py (`cv2.rotate`, `cv2.resize`, the
    box and caption drawing) are uninterpreted constructors here, so two
    frames are equal exactly when they were built by the same transforms
    from the same captured image. */
module Frames {

  /** The three fixed rotations script.py asks OpenCV for. */
  datatype Rotation = Clockwise90 | Rotate180 | CounterClockwise90

  /** One detector hit: box corners in pixels of the frame the detector was
      run on, and an index into the model's label table. */
  datatype Detection = Detection(x1: int, y1: int, x2: int, y2: int, classId: nat)

  datatype Frame =
    | Captured(id: nat, width: nat, height: nat)                  // as decoded from the stream
    | Rotated(rotation: Rotation, base: Frame)                    // cv2.rotate
    | Resized(base: Frame, newWidth: nat, newHeight: nat)         // cv2.resize
    | Annotated(base: Frame, detections: seq<Detection>)          // boxes and captions drawn in place

  /** Frames wider than this are downscaled before inference. */
  const MaxInferenceWidth: nat := 480

  /** Width and height of a frame in pixels. */
  function Dims(f: Frame): (nat, nat)
  {
    match f
    case Captured(_, w, h) => (w, h)
    case Rotated(rot, b) =>
      if rot == Rotate180 then Dims(b) else (Dims(b).1, Dims(b).0)
    case Resized(_, w, h) => (w, h)
    case Annotated(b, _) => Dims(b)
  }

  function Width(f: Frame): nat { Dims(f).0 }

  function Height(f: Frame): nat { Dims(f).1 }

  /** Net clockwise quarter turns applied to the captured image, modulo 4. */
  function QuarterTurns(f: Frame): (q: nat)
    ensures q < 4
  {
    match f
    case Captured(_, _, _) => 0
    case Rotated(rot, b) =>
      (QuarterTurns(b) + (match rot
                          case Clockwise90 => 1
                          case Rotate180 => 2
                          case CounterClockwise90 => 3)) % 4
    case Resized(b, _, _) => QuarterTurns(b)
    case Annotated(b, _) => QuarterTurns(b)
  }

  /** The captured image a frame was derived from. */
  function Origin(f: Frame): (o: Frame)
    ensures o.Captured?
  {
    match f
    case Captured(_, _, _) => f
    case Rotated(_, b) => Origin(b)
    case Resized(b, _, _) => Origin(b)
    case Annotated(b, _) => Origin(b)
  }

  /** Height after scaling a `width` x `height` frame to `MaxInferenceWidth`
      columns, keeping the aspect ratio (rounded to the nearest pixel). */
  function ScaledHeight(width: nat, height: nat): nat
    requires width > MaxInferenceWidth
  {
    (height * MaxInferenceWidth + width / 2) / width
  }

  /** The downscale decision of the processing loop: a frame wider than
      `MaxInferenceWidth` is resized to exactly that width, any other frame
      goes to the detector untouched. */
  function PrepareForInference(f: Frame): (r: Frame)
    ensures Width(r) <= MaxInferenceWidth
    ensures r == f <==> Width(f) <= MaxInferenceWidth
    ensures r != f ==> r.Resized? && r.base == f && Width(r) == MaxInferenceWidth
    ensures Origin(r) == Origin(f) && QuarterTurns(r) == QuarterTurns(f)
  {
    if Width(f) > MaxInferenceWidth then
      Resized(f, MaxInferenceWidth, ScaledHeight(Width(f), Height(f)))
    else
      f
  }

  /** Burns every detection into the frame as a box and a caption; the
      image keeps its size, orientation and origin, and the boxes drawn are
      exactly the detections given, in order. */
  function Annotate(f: Frame, detections: seq<Detection>): (r: Frame)
    ensures Dims(r) == Dims(f)
    ensures Origin(r) == Origin(f) && QuarterTurns(r) == QuarterTurns(f)
    ensures r.Annotated? && r.base == f && r.detections == detections
  {
    Annotated(f, detections)
  }
}
