/** The orientation controller: the rotation angle the two buttons change,
    and the mapping from that angle to the transform applied to every
    captured frame (script.py:66-79). */
module Orientation {
  import opened Frames

  const QuarterTurn: int := 90
  const FullTurn: int := 360

  /** The four angles the controller is meant to hold. */
  predicate IsQuadrant(angle: int)
  {
    angle == 0 || angle == 90 || angle == 180 || angle == 270
  }

  // Python's `%` floors; for the positive modulus used here that agrees
  // with Dafny's Euclidean `%`, so a negative intermediate such as -90
  // wraps to 270 in both.

  /** "Rotation -90°": one quarter turn counter-clockwise. */
  function RotateLeft(angle: int): (r: int)
    ensures 0 <= r < FullTurn
    ensures (r + QuarterTurn - angle) % FullTurn == 0
    ensures IsQuadrant(angle) ==> IsQuadrant(r)
  {
    (angle - QuarterTurn) % FullTurn
  }

  /** "Rotation +90°": one quarter turn clockwise. */
  function RotateRight(angle: int): (r: int)
    ensures 0 <= r < FullTurn
    ensures (r - QuarterTurn - angle) % FullTurn == 0
    ensures IsQuadrant(angle) ==> IsQuadrant(r)
  {
    (angle + QuarterTurn) % FullTurn
  }

  /** A button press. */
  datatype Turn = Left | Right

  function ApplyTurn(angle: int, t: Turn): int
  {
    match t
    case Left => RotateLeft(angle)
    case Right => RotateRight(angle)
  }

  /** The angle after pressing the buttons in order. */
  function ApplyTurns(angle: int, turns: seq<Turn>): int
    decreases |turns|
  {
    if |turns| == 0 then angle else ApplyTurns(ApplyTurn(angle, turns[0]), turns[1..])
  }

  /** Right presses minus left presses. */
  function NetQuarterTurns(turns: seq<Turn>): int
    decreases |turns|
  {
    if |turns| == 0 then 0
    else (if turns[0] == Right then 1 else -1) + NetQuarterTurns(turns[1..])
  }

  /** Any sequence of presses keeps a quadrant angle a quadrant angle; in
      particular the controller, which starts at 0, only ever holds 0, 90,
      180 or 270. */
  lemma {:induction false} TurnsStayQuadrant(angle: int, turns: seq<Turn>)
    requires IsQuadrant(angle)
    ensures IsQuadrant(ApplyTurns(angle, turns))
    decreases |turns|
  {
    if |turns| > 0 {
      TurnsStayQuadrant(ApplyTurn(angle, turns[0]), turns[1..]);
    }
  }

  lemma ModShift(x: int, y: int)
    ensures (x % FullTurn + y) % FullTurn == (x + y) % FullTurn
  {
    var q := x / FullTurn;
    assert x == FullTurn * q + x % FullTurn;
    assert (x + y) - (x % FullTurn + y) == FullTurn * q;
  }

  /** The angle after any sequence of presses depends only on the net
      number of quarter turns: it is the start angle plus 90 per net right
      press, reduced modulo 360. */
  lemma {:induction false} TurnsNetEffect(angle: int, turns: seq<Turn>)
    requires 0 <= angle < FullTurn
    ensures ApplyTurns(angle, turns) == (angle + QuarterTurn * NetQuarterTurns(turns)) % FullTurn
    decreases |turns|
  {
    if |turns| > 0 {
      var next := ApplyTurn(angle, turns[0]);
      var step := if turns[0] == Right then 1 else -1;
      TurnsNetEffect(next, turns[1..]);
      ModShift(angle + QuarterTurn * step, QuarterTurn * NetQuarterTurns(turns[1..]));
    }
  }

  /** Left after right, or right after left, restores the angle exactly. */
  lemma LeftRightInverse(angle: int)
    requires 0 <= angle < FullTurn
    ensures RotateLeft(RotateRight(angle)) == angle
    ensures RotateRight(RotateLeft(angle)) == angle
  {
    ModShift(angle + QuarterTurn, -QuarterTurn);
    ModShift(angle - QuarterTurn, QuarterTurn);
  }

  /** Four presses of the right button return to the original angle. */
  lemma FourRights(angle: int)
    requires 0 <= angle < FullTurn
    ensures RotateRight(RotateRight(RotateRight(RotateRight(angle)))) == angle
  {
    var r2 := RotateRight(RotateRight(angle));
    ModShift(angle + QuarterTurn, QuarterTurn);
    assert r2 == (angle + 180) % FullTurn;
    var r3 := RotateRight(r2);
    ModShift(angle + 180, QuarterTurn);
    assert r3 == (angle + 270) % FullTurn;
    ModShift(angle + 270, QuarterTurn);
    assert RotateRight(r3) == (angle + FullTurn) % FullTurn;
  }

  /** Four presses of the left button return to the original angle. */
  lemma FourLefts(angle: int)
    requires 0 <= angle < FullTurn
    ensures RotateLeft(RotateLeft(RotateLeft(RotateLeft(angle)))) == angle
  {
    var l1 := RotateLeft(angle);
    var l2 := RotateLeft(l1);
    var l3 := RotateLeft(l2);
    var l4 := RotateLeft(l3);
    FourRights(l4);
    LeftRightInverse(l3);
    LeftRightInverse(l2);
    LeftRightInverse(l1);
    LeftRightInverse(angle);
  }

  /** Applies the controller's angle to a frame: the image comes out turned
      clockwise by exactly `angle` degrees when the angle is 90, 180 or 270,
      and unchanged for any other angle, 0 included. */
  function RotateFrame(angle: int, f: Frame): (r: Frame)
    ensures r == f <==> !(angle == 90 || angle == 180 || angle == 270)
    ensures r != f ==> r.Rotated? && r.base == f
    ensures QuarterTurns(r) == (QuarterTurns(f) + (if IsQuadrant(angle) then angle / QuarterTurn else 0)) % 4
    ensures Dims(r) == (if angle == 90 || angle == 270 then (Height(f), Width(f)) else Dims(f))
    ensures Origin(r) == Origin(f)
  {
    if angle == 90 then
      assert f < Rotated(Clockwise90, f);
      Rotated(Clockwise90, f)
    else if angle == 180 then
      assert f < Rotated(Rotate180, f);
      Rotated(Rotate180, f)
    else if angle == 270 then
      assert f < Rotated(CounterClockwise90, f);
      Rotated(CounterClockwise90, f)
    else f
  }

  lemma ModFourShift(x: int, y: int)
    ensures (x % 4 + y) % 4 == (x + y) % 4
  {
    var q := x / 4;
    assert x == 4 * q + x % 4;
    assert (x + y) - (x % 4 + y) == 4 * q;
  }

  /** A right press turns every subsequently captured image one more
      quarter turn clockwise. */
  lemma TurnRightRotatesImage(angle: int, f: Frame)
    requires IsQuadrant(angle)
    ensures QuarterTurns(RotateFrame(RotateRight(angle), f)) == (QuarterTurns(RotateFrame(angle, f)) + 1) % 4
  {
    var q := QuarterTurns(f);
    var k := angle / QuarterTurn;
    assert RotateRight(angle) / QuarterTurn == (k + 1) % 4;
    ModFourShift(q + k, 1);
    ModFourShift(k + 1, q);
  }

  /** A left press turns every subsequently captured image one quarter
      turn back, i.e. three quarter turns clockwise. */
  lemma TurnLeftRotatesImage(angle: int, f: Frame)
    requires IsQuadrant(angle)
    ensures QuarterTurns(RotateFrame(RotateLeft(angle), f)) == (QuarterTurns(RotateFrame(angle, f)) + 3) % 4
  {
    var q := QuarterTurns(f);
    var k := angle / QuarterTurn;
    assert RotateLeft(angle) / QuarterTurn == (k + 3) % 4;
    ModFourShift(q + k, 3);
    ModFourShift(k + 3, q);
  }
}
