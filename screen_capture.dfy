/**
 * The drag-to-select overlay of `screen_capture_ui.py`: a mouse press records
 * one corner, the release gives the other, and the box spanned by the two,
 * scaled by two, becomes the OCR engine's bounding box.
 */
module ScreenCapture {

  import opened Wrappers

  /** The arguments `(x1, y1, x2, y2)` of a `set_bounding_box` call. */
  datatype Box = Box(x1: int, y1: int, x2: int, y2: int)

  function Min(a: int, b: int): int {
    if a <= b then a else b
  }

  function Max(a: int, b: int): int {
    if a <= b then b else a
  }

  /**
   * The box spanned by the corners `(px, py)` and `(qx, qy)`: least coordinates
   * first, the same two values on each axis, and ordered corners kept as given.
   */
  function Spanned(px: int, py: int, qx: int, qy: int): (b: Box)
    ensures b.x1 <= b.x2 && b.y1 <= b.y2
    ensures multiset{b.x1, b.x2} == multiset{px, qx}
    ensures multiset{b.y1, b.y2} == multiset{py, qy}
    ensures px <= qx && py <= qy ==> b == Box(px, py, qx, qy)
  {
    Box(Min(px, qx), Min(py, qy), Max(px, qx), Max(py, qy))
  }

  /** The box with every coordinate doubled, from window points to screen pixels. */
  function Doubled(b: Box): (d: Box)
    ensures d.x2 - d.x1 == 2 * (b.x2 - b.x1) && d.y2 - d.y1 == 2 * (b.y2 - b.y1)
    ensures d.x1 % 2 == 0 && d.y1 % 2 == 0 && d.x2 % 2 == 0 && d.y2 % 2 == 0
    ensures d.x1 / 2 == b.x1 && d.y1 / 2 == b.y1 && d.x2 / 2 == b.x2 && d.y2 / 2 == b.y2
  {
    Box(b.x1 * 2, b.y1 * 2, b.x2 * 2, b.y2 * 2)
  }

  /** The drag gives the same box whichever corner the user pressed first. */
  lemma SpannedIgnoresDirection(px: int, py: int, qx: int, qy: int)
    ensures Spanned(px, py, qx, qy) == Spanned(qx, qy, px, py)
  {
  }

  class ScreenCaptureApp {
    /** `start_x`, `start_y`: the press point, `None` before the first press. */
    var startX: Option<int>
    var startY: Option<int>
    /** `rect_id`: the canvas id of the rubber-band rectangle. */
    var rectId: Option<int>

    ghost predicate Valid()
      reads this
    {
      startX.Some? <==> startY.Some?
    }

    constructor ()
      ensures Valid() && startX == None && startY == None && rectId == None
    {
      startX, startY, rectId := None, None, None;
    }

    /**
     * `on_press`: record the event point as the start corner; `canvasId` is the
     * id the canvas hands back for the new rectangle.
     */
    method OnPress(x: int, y: int, canvasId: int)
      modifies this
      ensures Valid()
      ensures startX == Some(x) && startY == Some(y) && rectId == Some(canvasId)
    {
      startX := Some(x);
      startY := Some(y);
      rectId := Some(canvasId);
    }

    /**
     * `on_release`: order the press and release corners by swapping, then hand
     * the doubled box to `set_bounding_box`, whose arguments are returned. No
     * strictness check is made, so a zero-width drag is passed on too. Without
     * an earlier press the comparison of `None` with a number fails, and no
     * box is set.
     */
    method OnRelease(x: int, y: int) returns (call: Option<Box>)
      requires Valid()
      ensures call.Some? <==> startX.Some?
      ensures startX.Some? ==> call == Some(Doubled(Spanned(startX.value, startY.value, x, y)))
    {
      if startX.None? || startY.None? {
        return None;
      }
      var x1, y1, x2, y2 := startX.value, startY.value, x, y;
      if x1 > x2 {
        x1, x2 := x2, x1;
      }
      if y1 > y2 {
        y1, y2 := y2, y1;
      }
      call := Some(Box(x1 * 2, y1 * 2, x2 * 2, y2 * 2));
    }
  }

  /** A press at A and a release at B set the same box as a press at B and a release at A. */
  method DragEitherWay(px: int, py: int, qx: int, qy: int) returns (forward: Option<Box>, backward: Option<Box>)
    ensures forward.Some? && forward == backward
    ensures forward.value.x1 <= forward.value.x2 && forward.value.y1 <= forward.value.y2
  {
    var app := new ScreenCaptureApp();
    app.OnPress(px, py, 1);
    forward := app.OnRelease(qx, qy);
    app.OnPress(qx, qy, 2);
    backward := app.OnRelease(px, py);
    SpannedIgnoresDirection(px, py, qx, qy);
  }
}
