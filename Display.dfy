/** The frame buffer of src/display.cpp and its integer drawing primitives:
    draw_pixel, clear_frame_buffer, draw_grid, draw_rect and the Bresenham
    line draw_line_b.  Every primitive that goes through draw_pixel is
    specified by `Paint`, the in-order fold of its pixel writes. */
module Display {
  import opened Ints

  /** A packed ARGB colour, as the source's `u32`. */
  type Color = bv32

  /** Colour of the background grid. */
  const GRID_COLOR: Color := 0xff333333

  datatype Point = Point(x: int, y: int)

  /** The buffer cell that `draw_pixel` writes for (x, y). */
  function Cell(x: int, y: int, width: nat): int
  {
    x + y * width
  }

  /** The assertion of draw_pixel: it is non-strict, so column `width` and
      row `height` are admitted. */
  predicate Admits(x: int, y: int, width: nat, height: nat)
  {
    0 <= x <= width && 0 <= y <= height
  }

  predicate AllAdmitted(pts: seq<Point>, width: nat, height: nat)
  {
    forall i :: 0 <= i < |pts| ==> Admits(pts[i].x, pts[i].y, width, height)
  }

  /** The buffer after one draw_pixel-style write of c at (x, y); a write
      whose cell lies outside the buffer is dropped. */
  function Write(cur: seq<Color>, x: int, y: int, c: Color, width: nat): (r: seq<Color>)
    ensures |r| == |cur|
  {
    var k := Cell(x, y, width);
    if 0 <= k < |cur| then cur[k := c] else cur
  }

  /** The buffer after drawing the points `pts` in order, all in colour c:
      the in-order fold of `Write`.  The drawing methods only ever issue
      writes inside the buffer. */
  function Paint(buf: seq<Color>, pts: seq<Point>, c: Color, width: nat): (r: seq<Color>)
    ensures |r| == |buf|
    decreases |pts|
  {
    if pts == [] then buf
    else Paint(Write(buf, pts[0].x, pts[0].y, c, width), pts[1..], c, width)
  }

  /** Whether some point of `pts` lands on cell k. */
  predicate Hits(pts: seq<Point>, k: int, width: nat)
  {
    exists i :: 0 <= i < |pts| && Cell(pts[i].x, pts[i].y, width) == k
  }

  /** A cell gets the colour exactly when some point lands on it, and keeps
      its value otherwise. */
  lemma {:induction false} PaintAt(buf: seq<Color>, pts: seq<Point>, c: Color, width: nat, k: int)
    requires 0 <= k < |buf|
    ensures Paint(buf, pts, c, width)[k] == if Hits(pts, k, width) then c else buf[k]
    decreases |pts|
  {
    if pts != [] {
      var next := Write(buf, pts[0].x, pts[0].y, c, width);
      var tail := pts[1..];
      PaintAt(next, tail, c, width, k);
      if Hits(tail, k, width) {
        var i :| 0 <= i < |tail| && Cell(tail[i].x, tail[i].y, width) == k;
        assert pts[i + 1] == tail[i];
      }
      if Hits(pts, k, width) && !Hits(tail, k, width) {
        var i :| 0 <= i < |pts| && Cell(pts[i].x, pts[i].y, width) == k;
        if i > 0 {
          assert false;
        }
      }
      if !Hits(pts, k, width) {
        assert Cell(pts[0].x, pts[0].y, width) != k;
      }
    }
  }

  /** Drawing two batches of points one after the other is drawing their
      concatenation. */
  lemma {:induction false} PaintConcat(buf: seq<Color>, a: seq<Point>, b: seq<Point>, c: Color, width: nat)
    ensures Paint(buf, a + b, c, width) == Paint(Paint(buf, a, c, width), b, c, width)
    decreases |a|
  {
    if a == [] {
      assert a + b == b;
    } else {
      PaintConcat(Write(buf, a[0].x, a[0].y, c, width), a[1..], b, c, width);
      assert (a + b)[1..] == a[1..] + b;
    }
  }

  /** Drawing a point and then a batch is drawing the batch on the buffer
      the first write produced. */
  lemma PaintCons(buf: seq<Color>, x: int, y: int, pts: seq<Point>, c: Color, width: nat)
    ensures Paint(buf, [Point(x, y)] + pts, c, width) == Paint(Write(buf, x, y, c, width), pts, c, width)
  {
    assert ([Point(x, y)] + pts)[1..] == pts;
  }

  /** A pixel draw_pixel admits lands inside a buffer of four times the
      visible area. */
  lemma AdmittedInside(x: int, y: int, width: nat, height: nat)
    requires Admits(x, y, width, height) && 1 <= height
    ensures 0 <= Cell(x, y, width) < 4 * (width * height) || width == 0
  {
    if width > 0 {
      MulMonotone(width, 0, y);
      MulMonotone(width, y, height);
      MulMonotone(width, 1, height);
      assert y * width == width * y;
      assert 0 <= width * y <= width * height;
      assert 1 <= width <= width * height;
    }
  }

  // ---------------------------------------------------------------------
  // Bresenham (draw_line_b)

  /** Offsets of one step of draw_line_b along its major and minor axes. */
  datatype Step = Step(major: nat, minor: nat)

  /** The steps taken by the error-term loop of draw_line_b from its i-th
      iteration on, with `minor` minor-axis moves made so far and error `p`. */
  function Walk(dMaj: nat, dMin: nat, i: nat, minor: nat, p: int): seq<Step>
    decreases dMaj + 1 - i
  {
    if i > dMaj then []
    else if p >= 0 then [Step(i, minor)] + Walk(dMaj, dMin, i + 1, minor + 1, p - 2 * dMaj + 2 * dMin)
    else [Step(i, minor)] + Walk(dMaj, dMin, i + 1, minor, p + 2 * dMin)
  }

  /** Moves `d` from `a` in the direction draw_line_b picks for the target
      `b`: +1 when b > a, -1 otherwise. */
  function Toward(a: int, b: int, d: int): int
  {
    if b > a then a + d else a - d
  }

  /** The pixels of a walk: on an x-major line the major offset moves x and
      the minor offset moves y; on a y-major line the other way round. */
  function Place(w: seq<Step>, x0: int, y0: int, x1: int, y1: int, xMajor: bool): (pts: seq<Point>)
    ensures |pts| == |w|
  {
    seq(|w|, k requires 0 <= k < |w| => Plot(x0, y0, x1, y1, xMajor, w[k].major, w[k].minor))
  }

  /** The pixels draw_line_b draws, in drawing order. */
  function LinePoints(x0: int, y0: int, x1: int, y1: int): seq<Point>
  {
    var dx, dy := Abs(x1 - x0), Abs(y1 - y0);
    if dx >= dy then LineRest(x0, y0, x1, y1, true, dx, dy, 0, 0, 2 * dy - dx)
    else LineRest(x0, y0, x1, y1, false, dy, dx, 0, 0, 2 * dx - dy)
  }

  /** The pixel at offset `major` along the major axis and `minor` along the
      minor axis. */
  function Plot(x0: int, y0: int, x1: int, y1: int, xMajor: bool, major: int, minor: int): Point
  {
    if xMajor then Point(Toward(x0, x1, major), Toward(y0, y1, minor))
    else Point(Toward(x0, x1, minor), Toward(y0, y1, major))
  }

  /** The pixels draw_line_b still draws from iteration i on, with `minor`
      minor-axis moves made so far and error term p. */
  function LineRest(x0: int, y0: int, x1: int, y1: int, xMajor: bool,
                    dMaj: nat, dMin: nat, i: nat, minor: nat, p: int): seq<Point>
    decreases dMaj + 1 - i
  {
    if i > dMaj then []
    else if p >= 0 then
      [Plot(x0, y0, x1, y1, xMajor, i, minor)] + LineRest(x0, y0, x1, y1, xMajor, dMaj, dMin, i + 1, minor + 1, p - 2 * dMaj + 2 * dMin)
    else
      [Plot(x0, y0, x1, y1, xMajor, i, minor)] + LineRest(x0, y0, x1, y1, xMajor, dMaj, dMin, i + 1, minor, p + 2 * dMin)
  }

  /** The rest of the line is the rest of the walk, placed. */
  lemma {:induction false} LineRestIsPlaced(x0: int, y0: int, x1: int, y1: int, xMajor: bool,
                                            dMaj: nat, dMin: nat, i: nat, minor: nat, p: int)
    ensures LineRest(x0, y0, x1, y1, xMajor, dMaj, dMin, i, minor, p)
         == Place(Walk(dMaj, dMin, i, minor, p), x0, y0, x1, y1, xMajor)
    decreases dMaj + 1 - i
  {
    if i <= dMaj {
      var m', p' := if p >= 0 then minor + 1 else minor, if p >= 0 then p - 2 * dMaj + 2 * dMin else p + 2 * dMin;
      LineRestIsPlaced(x0, y0, x1, y1, xMajor, dMaj, dMin, i + 1, m', p');
      var w := Walk(dMaj, dMin, i + 1, m', p');
      assert Walk(dMaj, dMin, i, minor, p) == [Step(i, minor)] + w;
      var all := Place([Step(i, minor)] + w, x0, y0, x1, y1, xMajor);
      assert all == [Plot(x0, y0, x1, y1, xMajor, i, minor)] + Place(w, x0, y0, x1, y1, xMajor) by {
        assert forall k :: 1 <= k < |all| ==> all[k] == Place(w, x0, y0, x1, y1, xMajor)[k - 1];
      }
    }
  }

  /** The pixels the loop of draw_line_b draws from its state at iteration
      i (pixel (x, y), error term p) on: the loop itself, as a recursive
      function of its variables. */
  function LoopPoints(xMajor: bool, dMaj: nat, dMin: nat, xInc: int, yInc: int,
                      i: nat, x: int, y: int, p: int): seq<Point>
    decreases dMaj + 1 - i
  {
    if i > dMaj then []
    else if p >= 0 then
      [Point(x, y)] + LoopPoints(xMajor, dMaj, dMin, xInc, yInc, i + 1, x + xInc, y + yInc, p - 2 * dMaj + 2 * dMin)
    else if xMajor then
      [Point(x, y)] + LoopPoints(xMajor, dMaj, dMin, xInc, yInc, i + 1, x + xInc, y, p + 2 * dMin)
    else
      [Point(x, y)] + LoopPoints(xMajor, dMaj, dMin, xInc, yInc, i + 1, x, y + yInc, p + 2 * dMin)
  }

  /** The loop state that has made `minor` minor-axis moves by iteration i. */
  predicate AtStep(x0: int, y0: int, x1: int, y1: int, xMajor: bool, xInc: int, yInc: int,
                   i: nat, minor: nat, x: int, y: int)
  {
    && xInc == (if x1 > x0 then 1 else -1) && yInc == (if y1 > y0 then 1 else -1)
    && Point(x, y) == Plot(x0, y0, x1, y1, xMajor, i, minor)
  }

  /** The loop variables after one iteration are those of the next step. */
  lemma AtNextStep(x0: int, y0: int, x1: int, y1: int, xMajor: bool, xInc: int, yInc: int,
                   i: nat, minor: nat, x: int, y: int, p: int)
    requires AtStep(x0, y0, x1, y1, xMajor, xInc, yInc, i, minor, x, y)
    ensures p >= 0 ==> AtStep(x0, y0, x1, y1, xMajor, xInc, yInc, i + 1, minor + 1, x + xInc, y + yInc)
    ensures p < 0 && xMajor ==> AtStep(x0, y0, x1, y1, xMajor, xInc, yInc, i + 1, minor, x + xInc, y)
    ensures p < 0 && !xMajor ==> AtStep(x0, y0, x1, y1, xMajor, xInc, yInc, i + 1, minor, x, y + yInc)
  {
  }

  /** The loop, run from a state that has made `minor` minor-axis moves by
      iteration i, draws the rest of the line. */
  lemma {:induction false} LoopPointsIsRest(x0: int, y0: int, x1: int, y1: int, xMajor: bool,
                                            dMaj: nat, dMin: nat, xInc: int, yInc: int,
                                            i: nat, minor: nat, x: int, y: int, p: int)
    requires AtStep(x0, y0, x1, y1, xMajor, xInc, yInc, i, minor, x, y)
    ensures LoopPoints(xMajor, dMaj, dMin, xInc, yInc, i, x, y, p)
         == LineRest(x0, y0, x1, y1, xMajor, dMaj, dMin, i, minor, p)
    decreases dMaj + 1 - i
  {
    if i <= dMaj {
      AtNextStep(x0, y0, x1, y1, xMajor, xInc, yInc, i, minor, x, y, p);
      if p >= 0 {
        LoopPointsIsRest(x0, y0, x1, y1, xMajor, dMaj, dMin, xInc, yInc, i + 1, minor + 1,
                         x + xInc, y + yInc, p - 2 * dMaj + 2 * dMin);
      } else if xMajor {
        LoopPointsIsRest(x0, y0, x1, y1, xMajor, dMaj, dMin, xInc, yInc, i + 1, minor,
                         x + xInc, y, p + 2 * dMin);
      } else {
        LoopPointsIsRest(x0, y0, x1, y1, xMajor, dMaj, dMin, xInc, yInc, i + 1, minor,
                         x, y + yInc, p + 2 * dMin);
      }
    }
  }

  /** draw_line_b's loop, started from its initial state, draws exactly
      `LinePoints`. */
  lemma LineAsLoop(x0: int, y0: int, x1: int, y1: int)
    ensures var dx, dy := Abs(x1 - x0), Abs(y1 - y0);
            var xInc, yInc := (if x1 > x0 then 1 else -1), (if y1 > y0 then 1 else -1);
            && (dx >= dy ==> LinePoints(x0, y0, x1, y1)
                             == LoopPoints(true, dx, dy, xInc, yInc, 0, x0, y0, 2 * (dy as int) - dx))
            && (dx < dy ==> LinePoints(x0, y0, x1, y1)
                            == LoopPoints(false, dy, dx, xInc, yInc, 0, x0, y0, 2 * (dx as int) - dy))
  {
    var dx, dy := Abs(x1 - x0), Abs(y1 - y0);
    var xInc, yInc := (if x1 > x0 then 1 else -1), (if y1 > y0 then 1 else -1);
    if dx >= dy {
      var p := 2 * (dy as int) - dx;
      LoopPointsIsRest(x0, y0, x1, y1, true, dx, dy, xInc, yInc, 0, 0, x0, y0, p);
    } else {
      var p := 2 * (dx as int) - dy;
      LoopPointsIsRest(x0, y0, x1, y1, false, dy, dx, xInc, yInc, 0, 0, x0, y0, p);
    }
  }

  /** The loop runs once per major-axis value from i to dMaj. */
  lemma {:induction false} WalkLength(dMaj: nat, dMin: nat, i: nat, minor: nat, p: int)
    requires i <= dMaj + 1
    ensures |Walk(dMaj, dMin, i, minor, p)| == dMaj + 1 - i
    decreases dMaj + 1 - i
  {
    if i <= dMaj {
      if p >= 0 {
        WalkLength(dMaj, dMin, i + 1, minor + 1, p - 2 * dMaj + 2 * dMin);
      } else {
        WalkLength(dMaj, dMin, i + 1, minor, p + 2 * dMin);
      }
    }
  }

  /** The invariant of the error term: p - 2*dMin stays in [-2*dMaj, 0) and
      p records how far the drawn minor coordinate is from the ideal line. */
  predicate WalkInv(dMaj: nat, dMin: nat, i: nat, minor: nat, p: int)
  {
    && 0 < dMaj && dMin <= dMaj && i <= dMaj + 1
    && p == 2 * dMin * (i + 1) - dMaj * (2 * minor + 1)
    && 2 * dMin - 2 * dMaj <= p < 2 * dMin
  }

  lemma WalkInvStart(dMaj: nat, dMin: nat)
    requires 0 < dMaj && dMin <= dMaj
    ensures WalkInv(dMaj, dMin, 0, 0, 2 * (dMin as int) - dMaj)
  {
  }

  lemma WalkInvStep(dMaj: nat, dMin: nat, i: nat, minor: nat, p: int)
    requires WalkInv(dMaj, dMin, i, minor, p) && i <= dMaj
    ensures p >= 0 ==> WalkInv(dMaj, dMin, i + 1, minor + 1, p - 2 * dMaj + 2 * dMin)
    ensures p < 0 ==> WalkInv(dMaj, dMin, i + 1, minor, p + 2 * dMin)
  {
    if p >= 0 {
      assert 2 * dMin * (i + 2) == 2 * dMin * (i + 1) + 2 * dMin;
      assert dMaj * (2 * (minor + 1) + 1) == dMaj * (2 * minor + 1) + 2 * dMaj;
    } else {
      assert 2 * dMin * (i + 2) == 2 * dMin * (i + 1) + 2 * dMin;
    }
  }

  /** While the loop runs, the minor offset never passes dMin, and on the
      last iteration it is exactly dMin. */
  lemma MinorBound(dMaj: nat, dMin: nat, i: nat, minor: nat, p: int)
    requires WalkInv(dMaj, dMin, i, minor, p) && i <= dMaj
    ensures minor <= dMin
    ensures i == dMaj ==> minor == dMin
  {
    assert 2 * dMin * (i + 1) == 2 * dMin * i + 2 * dMin;
    assert dMaj * (2 * minor + 1) == 2 * (dMaj * minor) + dMaj;
    MulMonotone(dMin, i, dMaj);
    assert dMin * dMaj == dMaj * dMin;
    if minor > dMin {
      MulStrict(dMaj, dMin, minor);
      assert false;
    }
    if i == dMaj && minor < dMin {
      MulStrict(dMaj, minor, dMin);
      assert false;
    }
  }

  /** Shape of the walk: the major offset counts up by one per step, the
      minor offset starts at `minor`, moves by 0 or 1 per step, stays within
      [minor, dMin] and ends at dMin. */
  lemma {:induction false} WalkShape(dMaj: nat, dMin: nat, i: nat, minor: nat, p: int)
    requires WalkInv(dMaj, dMin, i, minor, p)
    ensures var w := Walk(dMaj, dMin, i, minor, p);
      && |w| == dMaj + 1 - i
      && (forall k :: 0 <= k < |w| ==> w[k].major == i + k && minor <= w[k].minor <= dMin)
      && (forall k :: 0 <= k < |w| - 1 ==> w[k + 1].minor == w[k].minor || w[k + 1].minor == w[k].minor + 1)
      && (|w| > 0 ==> w[0].minor == minor && w[|w| - 1].minor == dMin)
    decreases dMaj + 1 - i
  {
    WalkLength(dMaj, dMin, i, minor, p);
    if i <= dMaj {
      MinorBound(dMaj, dMin, i, minor, p);
      WalkInvStep(dMaj, dMin, i, minor, p);
      var minor', p' := if p >= 0 then minor + 1 else minor,
                        if p >= 0 then p - 2 * dMaj + 2 * dMin else p + 2 * dMin;
      WalkShape(dMaj, dMin, i + 1, minor', p');
      var rest := Walk(dMaj, dMin, i + 1, minor', p');
      assert Walk(dMaj, dMin, i, minor, p) == [Step(i, minor)] + rest;
      if i == dMaj {
        assert rest == [];
      } else {
        assert rest[0].minor == minor';
      }
    }
  }

  /** The facts about a walk that draw_line_b's outline depends on: one
      step per major offset 0..dMaj, the minor offset going from 0 to dMin
      by steps of 0 or 1. */
  predicate WalkShaped(w: seq<Step>, dMaj: nat, dMin: nat)
  {
    && |w| == dMaj + 1
    && (forall k :: 0 <= k < |w| ==> w[k].major == k && w[k].minor <= dMin)
    && (forall k :: 0 <= k < |w| - 1 ==> w[k + 1].minor == w[k].minor || w[k + 1].minor == w[k].minor + 1)
    && w[0].minor == 0 && w[|w| - 1].minor == dMin
  }

  /** The walk of draw_line_b has that shape, for either axis ordering. */
  lemma LineWalk(dMaj: nat, dMin: nat)
    requires dMin <= dMaj
    ensures WalkShaped(Walk(dMaj, dMin, 0, 0, 2 * (dMin as int) - dMaj), dMaj, dMin)
  {
    if dMaj == 0 {
      assert Walk(0, 0, 1, 1, 0) == [];
      assert Walk(dMaj, dMin, 0, 0, 2 * (dMin as int) - dMaj) == [Step(0, 0)];
    } else {
      WalkInvStart(dMaj, dMin);
      WalkShape(dMaj, dMin, 0, 0, 2 * (dMin as int) - dMaj);
    }
  }

  /** The walk draw_line_b takes for the given end points, with its axes. */
  lemma LineIsPlacedWalk(x0: int, y0: int, x1: int, y1: int)
    returns (w: seq<Step>, dMaj: nat, dMin: nat, xMajor: bool)
    ensures xMajor == (Abs(x1 - x0) >= Abs(y1 - y0))
    ensures dMaj == (if xMajor then Abs(x1 - x0) else Abs(y1 - y0))
    ensures dMin == (if xMajor then Abs(y1 - y0) else Abs(x1 - x0))
    ensures LinePoints(x0, y0, x1, y1) == Place(w, x0, y0, x1, y1, xMajor)
    ensures WalkShaped(w, dMaj, dMin)
  {
    var dx, dy := Abs(x1 - x0), Abs(y1 - y0);
    xMajor := dx >= dy;
    dMaj := if xMajor then dx else dy;
    dMin := if xMajor then dy else dx;
    w := Walk(dMaj, dMin, 0, 0, 2 * (dMin as int) - dMaj);
    assert LinePoints(x0, y0, x1, y1) == Place(w, x0, y0, x1, y1, xMajor) by {
      LineRestIsPlaced(x0, y0, x1, y1, xMajor, dMaj, dMin, 0, 0, 2 * (dMin as int) - dMaj);
    }
    LineWalk(dMaj, dMin);
  }

  /** draw_line_b draws max(|dx|, |dy|) + 1 pixels, the first at (x0, y0)
      and the last at (x1, y1). */
  lemma LineEndpoints(x0: int, y0: int, x1: int, y1: int)
    ensures var pts := LinePoints(x0, y0, x1, y1);
      && |pts| == Max(Abs(x1 - x0), Abs(y1 - y0)) + 1
      && pts[0] == Point(x0, y0)
      && pts[|pts| - 1] == Point(x1, y1)
  {
    var w, dMaj, dMin, xMajor := LineIsPlacedWalk(x0, y0, x1, y1);
    var pts := Place(w, x0, y0, x1, y1, xMajor);
    assert pts[0] == Point(x0, y0);
    assert pts[|pts| - 1] == Point(x1, y1);
  }

  /** Each step moves the major axis by exactly one toward the end point and
      the minor axis by zero or one toward it; so consecutive pixels are
      8-neighbours. */
  lemma LineSteps(x0: int, y0: int, x1: int, y1: int, k: nat)
    requires k + 1 < |LinePoints(x0, y0, x1, y1)|
    ensures var pts := LinePoints(x0, y0, x1, y1);
      var ddx, ddy := pts[k + 1].x - pts[k].x, pts[k + 1].y - pts[k].y;
      && (Abs(x1 - x0) >= Abs(y1 - y0) ==>
            ddx == (if x1 > x0 then 1 else -1) && (ddy == 0 || ddy == (if y1 > y0 then 1 else -1)))
      && (Abs(x1 - x0) < Abs(y1 - y0) ==>
            ddy == (if y1 > y0 then 1 else -1) && (ddx == 0 || ddx == (if x1 > x0 then 1 else -1)))
      && Max(Abs(ddx), Abs(ddy)) == 1
  {
    var w, dMaj, dMin, xMajor := LineIsPlacedWalk(x0, y0, x1, y1);
    var pts := Place(w, x0, y0, x1, y1, xMajor);
    assert w[k].major == k && w[k + 1].major == k + 1;
    assert pts[k] == (if xMajor then Point(Toward(x0, x1, w[k].major), Toward(y0, y1, w[k].minor))
      else Point(Toward(x0, x1, w[k].minor), Toward(y0, y1, w[k].major)));
    assert pts[k + 1] == (if xMajor then Point(Toward(x0, x1, w[k + 1].major), Toward(y0, y1, w[k + 1].minor))
      else Point(Toward(x0, x1, w[k + 1].minor), Toward(y0, y1, w[k + 1].major)));
  }

  /** Every pixel of the line lies in the bounding box of its end points. */
  lemma LineInBox(x0: int, y0: int, x1: int, y1: int, k: nat)
    requires k < |LinePoints(x0, y0, x1, y1)|
    ensures var q := LinePoints(x0, y0, x1, y1)[k];
      Min(x0, x1) <= q.x <= Max(x0, x1) && Min(y0, y1) <= q.y <= Max(y0, y1)
  {
    var w, dMaj, dMin, xMajor := LineIsPlacedWalk(x0, y0, x1, y1);
    var pts := Place(w, x0, y0, x1, y1, xMajor);
    assert w[k].major <= dMaj && w[k].minor <= dMin;
    assert pts[k] == (if xMajor then Point(Toward(x0, x1, w[k].major), Toward(y0, y1, w[k].minor))
      else Point(Toward(x0, x1, w[k].minor), Toward(y0, y1, w[k].major)));
  }

  /** A line whose end points draw_pixel admits is admitted pixel by pixel. */
  lemma LineAdmitted(x0: int, y0: int, x1: int, y1: int, width: nat, height: nat)
    requires Admits(x0, y0, width, height) && Admits(x1, y1, width, height)
    ensures AllAdmitted(LinePoints(x0, y0, x1, y1), width, height)
  {
    var pts := LinePoints(x0, y0, x1, y1);
    forall k | 0 <= k < |pts|
      ensures Admits(pts[k].x, pts[k].y, width, height)
    {
      LineInBox(x0, y0, x1, y1, k);
    }
  }

  /** The horizontal line from (0,0) to (4,0) is exactly (0,0)..(4,0). */
  lemma HorizontalLine()
    ensures LinePoints(0, 0, 4, 0) ==
      [Point(0, 0), Point(1, 0), Point(2, 0), Point(3, 0), Point(4, 0)]
  {
    var w := Walk(4, 0, 0, 0, -4);
    assert w == [Step(0, 0), Step(1, 0), Step(2, 0), Step(3, 0), Step(4, 0)];
  }

  // ---------------------------------------------------------------------
  // draw_rect

  /** The pixel draw_rect draws for loop values i and j: `i - width / 2` is
      computed in `size_t` and truncated to `u32` by draw_pixel. */
  function RectPixel(i: int, j: int, w: nat, h: nat): Point
  {
    Point(U32(i - w / 2), U32(j - h / 2))
  }

  /** Iterations of `for (size_t i = start; i < end; i++)`. */
  function Count(start: int, end: int): nat
  {
    if end > start then end - start else 0
  }

  /** The pixels the inner loop of draw_rect draws in row j, from column
      value i up to (not including) colEnd. */
  function RowPoints(i: int, colEnd: int, j: int, w: nat, h: nat): seq<Point>
    decreases colEnd - i
  {
    if i < colEnd then [RectPixel(i, j, w, h)] + RowPoints(i + 1, colEnd, j, w, h) else []
  }

  /** The pixels the outer loop of draw_rect draws from row value j up to
      (not including) rowEnd, each row from column value xs. */
  function RowsPoints(xs: int, colEnd: int, j: int, rowEnd: int, w: nat, h: nat): seq<Point>
    decreases rowEnd - j
  {
    if j < rowEnd then RowPoints(xs, colEnd, j, w, h) + RowsPoints(xs, colEnd, j + 1, rowEnd, w, h) else []
  }

  /** All pixels draw_rect(x, y, w, h) draws, in drawing order.  The loop
      counters start at the `size_t` conversion of x and y, and the bounds
      `x + width` and `y + height` are computed in `u32`. */
  function RectPoints(x: int, y: int, w: nat, h: nat): seq<Point>
  {
    RowsPoints(SizeT(x), U32(x + w), SizeT(y), U32(y + h), w, h)
  }

  /** A batch is admitted exactly when both its halves are. */
  lemma AdmittedConcat(a: seq<Point>, b: seq<Point>, width: nat, height: nat)
    ensures AllAdmitted(a + b, width, height) <==> AllAdmitted(a, width, height) && AllAdmitted(b, width, height)
  {
    if AllAdmitted(a + b, width, height) {
      forall k | 0 <= k < |a|
        ensures Admits(a[k].x, a[k].y, width, height)
      {
        assert a[k] == (a + b)[k];
      }
      forall k | 0 <= k < |b|
        ensures Admits(b[k].x, b[k].y, width, height)
      {
        assert b[k] == (a + b)[|a| + k];
      }
    }
    if AllAdmitted(a, width, height) && AllAdmitted(b, width, height) {
      forall k | 0 <= k < |a + b|
        ensures Admits((a + b)[k].x, (a + b)[k].y, width, height)
      {
        if k < |a| {
          assert (a + b)[k] == a[k];
        } else {
          assert (a + b)[k] == b[k - |a|];
        }
      }
    }
  }

  lemma {:induction false} RowLength(i: int, colEnd: int, j: int, w: nat, h: nat)
    ensures |RowPoints(i, colEnd, j, w, h)| == Count(i, colEnd)
    decreases colEnd - i
  {
    if i < colEnd {
      RowLength(i + 1, colEnd, j, w, h);
    }
  }

  /** The outer loop draws one full row per row value. */
  lemma {:induction false} RowsLength(xs: int, colEnd: int, j: int, rowEnd: int, w: nat, h: nat)
    ensures |RowsPoints(xs, colEnd, j, rowEnd, w, h)| == Count(j, rowEnd) * Count(xs, colEnd)
    decreases rowEnd - j
  {
    if j < rowEnd {
      RowLength(xs, colEnd, j, w, h);
      RowsLength(xs, colEnd, j + 1, rowEnd, w, h);
      MulSucc(Count(xs, colEnd), Count(j + 1, rowEnd));
      assert Count(j, rowEnd) == Count(j + 1, rowEnd) + 1;
    }
  }

  /** The inner loop draws exactly the pixels of the column values it visits. */
  lemma {:induction false} RowMember(i: int, colEnd: int, j: int, w: nat, h: nat, p: Point)
    ensures p in RowPoints(i, colEnd, j, w, h) <==> exists k :: i <= k < colEnd && p == RectPixel(k, j, w, h)
    decreases colEnd - i
  {
    if i < colEnd {
      RowMember(i + 1, colEnd, j, w, h, p);
      if p in RowPoints(i + 1, colEnd, j, w, h) {
        var k :| i + 1 <= k < colEnd && p == RectPixel(k, j, w, h);
        assert i <= k < colEnd;
      }
    }
  }

  /** The outer loop draws exactly the pixels of the value pairs it visits. */
  lemma {:induction false} RowsMember(xs: int, colEnd: int, j: int, rowEnd: int, w: nat, h: nat, p: Point)
    ensures p in RowsPoints(xs, colEnd, j, rowEnd, w, h) <==>
      exists k, l :: xs <= k < colEnd && j <= l < rowEnd && p == RectPixel(k, l, w, h)
    decreases rowEnd - j
  {
    if j < rowEnd {
      RowMember(xs, colEnd, j, w, h, p);
      RowsMember(xs, colEnd, j + 1, rowEnd, w, h, p);
      if p in RowPoints(xs, colEnd, j, w, h) {
        var k :| xs <= k < colEnd && p == RectPixel(k, j, w, h);
        assert xs <= k < colEnd && j <= j < rowEnd;
      } else if p in RowsPoints(xs, colEnd, j + 1, rowEnd, w, h) {
        var k, l :| xs <= k < colEnd && j + 1 <= l < rowEnd && p == RectPixel(k, l, w, h);
        assert j <= l < rowEnd;
      } else if exists k, l :: xs <= k < colEnd && j <= l < rowEnd && p == RectPixel(k, l, w, h) {
        var k, l :| xs <= k < colEnd && j <= l < rowEnd && p == RectPixel(k, l, w, h);
        if l == j {
          assert false;
        }
        assert false;
      }
    }
  }

  /** draw_rect draws exactly the pixels (i - w/2, j - h/2), truncated to
      `u32`, for the values i and j its two loops visit, and one pixel per
      pair of values. */
  lemma RectPointsExact(x: int, y: int, w: nat, h: nat, p: Point)
    ensures |RectPoints(x, y, w, h)| == Count(SizeT(y), U32(y + h)) * Count(SizeT(x), U32(x + w))
    ensures p in RectPoints(x, y, w, h) <==>
      exists i, j :: SizeT(x) <= i < U32(x + w) && SizeT(y) <= j < U32(y + h) && p == RectPixel(i, j, w, h)
  {
    RowsLength(SizeT(x), U32(x + w), SizeT(y), U32(y + h), w, h);
    RowsMember(SizeT(x), U32(x + w), SizeT(y), U32(y + h), w, h, p);
  }

  /** In the ordinary case (non-negative corner, no `u32` wrap, the
      rectangle not reaching past column or row 0) draw_rect draws w * h
      pixels, exactly the w-by-h box centred on (x, y). */
  lemma RectCentred(x: int, y: int, w: nat, h: nat, p: Point)
    requires w / 2 <= x && x + w < U32_LIMIT && h / 2 <= y && y + h < U32_LIMIT
    ensures |RectPoints(x, y, w, h)| == w * h
    ensures p in RectPoints(x, y, w, h) <==>
      x - w / 2 <= p.x < x - w / 2 + w && y - h / 2 <= p.y < y - h / 2 + h
  {
    RectPointsExact(x, y, w, h, p);
    assert h * w == w * h;
    if x - w / 2 <= p.x < x - w / 2 + w && y - h / 2 <= p.y < y - h / 2 + h {
      assert p == RectPixel(p.x + w / 2, p.y + h / 2, w, h);
    }
  }

  /** A 4x4 dot at (10, 20) covers columns 8..11 and rows 18..21. */
  lemma SmallDot(p: Point)
    ensures p in RectPoints(10, 20, 4, 4) <==> 8 <= p.x <= 11 && 18 <= p.y <= 21
  {
    RectCentred(10, 20, 4, 4, p);
  }

  /** A corner with a negative coordinate converts to a huge `size_t`, so
      the loop runs zero times and draw_rect draws nothing. */
  lemma NegativeCornerDrawsNothing(x: int, y: int, w: nat, h: nat)
    requires -0x8000_0000 <= x < 0 || -0x8000_0000 <= y < 0
    ensures RectPoints(x, y, w, h) == []
  {
    RectPointsExact(x, y, w, h, Point(0, 0));
  }

  // ---------------------------------------------------------------------
  // draw_grid

  /** Whether draw_grid paints the pixel (x, y). */
  predicate OnGrid(x: int, y: int, gx: nat, gy: nat)
    requires gx > 0 && gy > 0
  {
    x % gx == 0 || y % gy == 0
  }

  /** The last visible cell is below width * height. */
  lemma VisibleCell(x: nat, y: nat, width: nat, height: nat)
    requires x < width && y < height
    ensures Cell(x, y, width) < width * height
  {
    MulStrict(width, y, height);
    assert width * y == y * width && width * height == height * width;
  }

  /** The buffer after draw_grid has visited its first n cells (row-major,
      cell k is column k % width of row k / width). */
  function Grid(buf: seq<Color>, n: nat, width: nat, gx: nat, gy: nat): (r: seq<Color>)
    requires width > 0 && gx > 0 && gy > 0
    ensures |r| == |buf|
    decreases n
  {
    if n == 0 then buf
    else
      var prev := Grid(buf, n - 1, width, gx, gy);
      var k := n - 1;
      if k < |buf| && OnGrid(k % width, k / width, gx, gy) then prev[k := GRID_COLOR] else prev
  }

  /** Cell k after visiting n cells: painted when visited and on the grid. */
  lemma {:induction false} GridIndex(buf: seq<Color>, n: nat, width: nat, gx: nat, gy: nat, k: nat)
    requires width > 0 && gx > 0 && gy > 0 && k < |buf|
    ensures Grid(buf, n, width, gx, gy)[k] ==
      if k < n && OnGrid(k % width, k / width, gx, gy) then GRID_COLOR else buf[k]
    decreases n
  {
    if n > 0 {
      GridIndex(buf, n - 1, width, gx, gy, k);
    }
  }

  /** Visiting cell (x, y), the cell after the first y * width + x, paints
      it when x is a multiple of gx or y a multiple of gy. */
  lemma GridStep(buf: seq<Color>, row: int, x: nat, y: nat, width: nat, height: nat, gx: nat, gy: nat)
    requires row == width * y && x < width && y < height && width * height <= |buf|
    requires gx > 0 && gy > 0
    ensures x + y * width == row + x < width * height
    ensures Grid(buf, row + x + 1, width, gx, gy) ==
      if x % gx == 0 || y % gy == 0 then Grid(buf, row + x, width, gx, gy)[row + x := GRID_COLOR]
      else Grid(buf, row + x, width, gx, gy)
  {
    VisibleCell(x, y, width, height);
    DivMod(x, y, width);
  }

  /** After draw_grid, visible pixel (x, y) is GRID_COLOR exactly when x is
      a multiple of gx or y a multiple of gy, and keeps its old value
      otherwise. */
  lemma GridAt(buf: seq<Color>, width: nat, height: nat, gx: nat, gy: nat, x: nat, y: nat)
    requires gx > 0 && gy > 0 && width * height <= |buf|
    requires x < width && y < height
    ensures Cell(x, y, width) < width * height
    ensures Grid(buf, width * height, width, gx, gy)[Cell(x, y, width)] ==
        if OnGrid(x, y, gx, gy) then GRID_COLOR else buf[Cell(x, y, width)]
  {
    VisibleCell(x, y, width, height);
    DivMod(x, y, width);
    GridIndex(buf, width * height, width, gx, gy, Cell(x, y, width));
  }

  /** draw_grid leaves the cells past the visible area unchanged. */
  lemma GridBeyond(buf: seq<Color>, width: nat, gx: nat, gy: nat, n: nat, k: nat)
    requires width > 0 && gx > 0 && gy > 0
    requires n <= k < |buf|
    ensures Grid(buf, n, width, gx, gy)[k] == buf[k]
  {
    GridIndex(buf, n, width, gx, gy, k);
  }

  // ---------------------------------------------------------------------
  // clear_frame_buffer

  /** The buffer with its first n cells set to c. */
  function Fill(buf: seq<Color>, n: int, c: Color): (r: seq<Color>)
    ensures |r| == |buf|
  {
    seq(|buf|, k requires 0 <= k < |buf| => if k < n then c else buf[k])
  }

  /** Visiting cell (x, y), the cell after the first width * y + x, fills
      one more cell. */
  lemma FillStep(buf: seq<Color>, row: int, x: nat, y: nat, width: nat, height: nat, c: Color)
    requires row == width * y && x < width && y < height && width * height <= |buf|
    ensures x + y * width == row + x < width * height
    ensures Fill(buf, row + x + 1, c) == Fill(buf, row + x, c)[row + x := c]
  {
    VisibleCell(x, y, width, height);
  }

  /** After clear_frame_buffer the visible cells hold the colour and the
      rest of the buffer is unchanged. */
  lemma FillAt(buf: seq<Color>, width: nat, height: nat, c: Color, k: nat)
    requires k < |buf|
    ensures Fill(buf, width * height, c)[k] == if k < width * height then c else buf[k]
  {
  }

  // ---------------------------------------------------------------------
  // The frame buffer

  /** The global `frame_buffer` with the window size it was allocated for:
      setup() sizes it `sizeof(u32) * window_width * window_height`, four
      times the visible area. */
  class FrameBuffer {
    const width: nat
    const height: nat
    const data: array<Color>

    /** The window is non-empty and small enough that draw_pixel's `u32`
        index arithmetic never wraps. */
    predicate Valid()
    {
      && 1 <= width && 1 <= height
      && data.Length == 4 * (width * height)
      && data.Length < U32_LIMIT
    }

    constructor (w: nat, h: nat)
      requires 1 <= w && 1 <= h && 4 * (w * h) < U32_LIMIT
      ensures Valid() && width == w && height == h && fresh(data)
      ensures forall k :: 0 <= k < data.Length ==> data[k] == 0
    {
      width, height := w, h;
      data := new Color[4 * (w * h)](_ => 0);
    }

    /** Every pixel draw_pixel admits lands inside the buffer. */
    lemma AdmittedCell(x: int, y: int)
      requires Valid() && Admits(x, y, width, height)
      ensures 0 <= Cell(x, y, width) < data.Length
    {
      AdmittedInside(x, y, width, height);
    }

    /** Column `width` of row y is the same cell as column 0 of row y + 1:
        the non-strict assertion of draw_pixel lets a write at x == width
        land on the next row. */
    lemma RightEdgeWraps(y: nat)
      ensures Cell(width, y, width) == Cell(0, y + 1, width)
    {
    }

    method DrawPixel(x: int, y: int, color: Color)
      requires Valid() && Admits(x, y, width, height)
      modifies data
      ensures data[..] == Write(old(data[..]), x, y, color, width)
    {
      AdmittedCell(x, y);
      data[x + y * width] := color;
    }

    method ClearFrameBuffer(color: Color)
      requires Valid()
      modifies data
      ensures data[..] == Fill(old(data[..]), width * height, color)
    {
      var y := 0;
      ghost var row := 0;
      while y < height
        invariant 0 <= y <= height && row == width * y
        invariant data[..] == Fill(old(data[..]), row, color)
      {
        var x := 0;
        while x < width
          invariant 0 <= x <= width
          invariant data[..] == Fill(old(data[..]), row + x, color)
        {
          FillStep(old(data[..]), row, x, y, width, height, color);
          data[x + y * width] := color;
          x := x + 1;
        }
        MulSucc(width, y);
        y, row := y + 1, row + width;
      }
    }

    /** draw_grid visits the visible cells in row-major order and paints
        those on the grid. */
    method DrawGrid(gx: nat, gy: nat)
      requires Valid() && gx > 0 && gy > 0
      modifies data
      ensures data[..] == Grid(old(data[..]), width * height, width, gx, gy)
    {
      var y := 0;
      ghost var row := 0;
      while y < height
        invariant 0 <= y <= height && row == width * y
        invariant data[..] == Grid(old(data[..]), row, width, gx, gy)
      {
        var x := 0;
        while x < width
          invariant 0 <= x <= width
          invariant data[..] == Grid(old(data[..]), row + x, width, gx, gy)
        {
          GridStep(old(data[..]), row, x, y, width, height, gx, gy);
          if x % gx == 0 || y % gy == 0 {
            data[x + y * width] := GRID_COLOR;
          }
          x := x + 1;
        }
        MulSucc(width, y);
        y, row := y + 1, row + width;
      }
    }

    /** The inner loop of draw_rect: row value j, column values from xs up
        to (not including) colEnd. */
    method DrawRectRow(xs: int, colEnd: int, j: int, w: nat, h: nat, color: Color)
      requires Valid() && AllAdmitted(RowPoints(xs, colEnd, j, w, h), width, height)
      modifies data
      ensures data[..] == Paint(old(data[..]), RowPoints(xs, colEnd, j, w, h), color, width)
    {
      var i := xs;
      while i < colEnd
        invariant AllAdmitted(RowPoints(i, colEnd, j, w, h), width, height)
        invariant Paint(data[..], RowPoints(i, colEnd, j, w, h), color, width)
               == Paint(old(data[..]), RowPoints(xs, colEnd, j, w, h), color, width)
        decreases colEnd - i
      {
        assert Admits(U32(i - w / 2), U32(j - h / 2), width, height)
            && AllAdmitted(RowPoints(i + 1, colEnd, j, w, h), width, height) by {
          AdmittedConcat([RectPixel(i, j, w, h)], RowPoints(i + 1, colEnd, j, w, h), width, height);
          assert [RectPixel(i, j, w, h)][0] == RectPixel(i, j, w, h);
        }
        assert Paint(data[..], RowPoints(i, colEnd, j, w, h), color, width)
            == Paint(Write(data[..], U32(i - w / 2), U32(j - h / 2), color, width), RowPoints(i + 1, colEnd, j, w, h), color, width) by {
          PaintCons(data[..], U32(i - w / 2), U32(j - h / 2), RowPoints(i + 1, colEnd, j, w, h), color, width);
        }
        AdmittedCell(U32(i - w / 2), U32(j - h / 2));
        DrawPixel(U32(i - w / 2), U32(j - h / 2), color);
        i := i + 1;
      }
    }

    /** draw_rect: the pixels of `RectPoints`, drawn in order. */
    method DrawRect(x: int, y: int, w: nat, h: nat, color: Color)
      requires Valid() && AllAdmitted(RectPoints(x, y, w, h), width, height)
      modifies data
      ensures data[..] == Paint(old(data[..]), RectPoints(x, y, w, h), color, width)
    {
      var xs, ys := SizeT(x), SizeT(y);
      var colEnd, rowEnd := U32(x + w), U32(y + h);
      var j := ys;
      while j < rowEnd
        invariant AllAdmitted(RowsPoints(xs, colEnd, j, rowEnd, w, h), width, height)
        invariant Paint(data[..], RowsPoints(xs, colEnd, j, rowEnd, w, h), color, width)
               == Paint(old(data[..]), RectPoints(x, y, w, h), color, width)
        decreases rowEnd - j
      {
        ghost var row, rest := RowPoints(xs, colEnd, j, w, h), RowsPoints(xs, colEnd, j + 1, rowEnd, w, h);
        assert AllAdmitted(row, width, height) && AllAdmitted(rest, width, height) by {
          AdmittedConcat(row, rest, width, height);
        }
        assert Paint(data[..], row + rest, color, width) == Paint(Paint(data[..], row, color, width), rest, color, width) by {
          PaintConcat(data[..], row, rest, color, width);
        }
        DrawRectRow(xs, colEnd, j, w, h, color);
        j := j + 1;
      }
    }

    /** The loop of draw_line_b on an x-major line (|dx| >= |dy|). */
    method WalkX(x0: int, y0: int, dx: nat, dy: nat, xInc: int, yInc: int, color: Color)
      requires Valid() && AllAdmitted(LoopPoints(true, dx, dy, xInc, yInc, 0, x0, y0, 2 * (dy as int) - dx), width, height)
      modifies data
      ensures data[..] == Paint(old(data[..]), LoopPoints(true, dx, dy, xInc, yInc, 0, x0, y0, 2 * (dy as int) - dx), color, width)
    {
      var x, y := x0, y0;
      var p: int := 2 * (dy as int) - dx;
      var i := 0;
      while i <= dx
        invariant 0 <= i <= dx + 1
        invariant AllAdmitted(LoopPoints(true, dx, dy, xInc, yInc, i, x, y, p), width, height)
        invariant Paint(data[..], LoopPoints(true, dx, dy, xInc, yInc, i, x, y, p), color, width)
               == Paint(old(data[..]), LoopPoints(true, dx, dy, xInc, yInc, 0, x0, y0, 2 * (dy as int) - dx), color, width)
      {
        ghost var x', y' := x + xInc, if p >= 0 then y + yInc else y;
        ghost var p' := if p >= 0 then p - 2 * dx + 2 * dy else p + 2 * dy;
        ghost var rest := LoopPoints(true, dx, dy, xInc, yInc, i + 1, x', y', p');
        assert LoopPoints(true, dx, dy, xInc, yInc, i, x, y, p) == [Point(x, y)] + rest;
        assert Admits(x, y, width, height) && AllAdmitted(rest, width, height) by {
          AdmittedConcat([Point(x, y)], rest, width, height);
          assert [Point(x, y)][0] == Point(x, y);
        }
        assert Paint(data[..], [Point(x, y)] + rest, color, width) == Paint(Write(data[..], x, y, color, width), rest, color, width) by {
          PaintCons(data[..], x, y, rest, color, width);
        }
        AdmittedCell(x, y);
        DrawPixel(x, y, color);
        if p >= 0 {
          y := y + yInc;
          p := p - 2 * dx;
        }
        x := x + xInc;
        p := p + 2 * dy;
        i := i + 1;
        assert x == x' && y == y' && p == p';
      }
    }

    /** The loop of draw_line_b on a y-major line (|dx| < |dy|). */
    method WalkY(x0: int, y0: int, dx: nat, dy: nat, xInc: int, yInc: int, color: Color)
      requires Valid() && AllAdmitted(LoopPoints(false, dy, dx, xInc, yInc, 0, x0, y0, 2 * (dx as int) - dy), width, height)
      modifies data
      ensures data[..] == Paint(old(data[..]), LoopPoints(false, dy, dx, xInc, yInc, 0, x0, y0, 2 * (dx as int) - dy), color, width)
    {
      var x, y := x0, y0;
      var p: int := 2 * (dx as int) - dy;
      var i := 0;
      while i <= dy
        invariant 0 <= i <= dy + 1
        invariant AllAdmitted(LoopPoints(false, dy, dx, xInc, yInc, i, x, y, p), width, height)
        invariant Paint(data[..], LoopPoints(false, dy, dx, xInc, yInc, i, x, y, p), color, width)
               == Paint(old(data[..]), LoopPoints(false, dy, dx, xInc, yInc, 0, x0, y0, 2 * (dx as int) - dy), color, width)
      {
        ghost var x', y' := if p >= 0 then x + xInc else x, y + yInc;
        ghost var p' := if p >= 0 then p - 2 * dy + 2 * dx else p + 2 * dx;
        ghost var rest := LoopPoints(false, dy, dx, xInc, yInc, i + 1, x', y', p');
        assert LoopPoints(false, dy, dx, xInc, yInc, i, x, y, p) == [Point(x, y)] + rest;
        assert Admits(x, y, width, height) && AllAdmitted(rest, width, height) by {
          AdmittedConcat([Point(x, y)], rest, width, height);
          assert [Point(x, y)][0] == Point(x, y);
        }
        assert Paint(data[..], [Point(x, y)] + rest, color, width) == Paint(Write(data[..], x, y, color, width), rest, color, width) by {
          PaintCons(data[..], x, y, rest, color, width);
        }
        AdmittedCell(x, y);
        DrawPixel(x, y, color);
        if p >= 0 {
          x := x + xInc;
          p := p - 2 * dy;
        }
        y := y + yInc;
        p := p + 2 * dx;
        i := i + 1;
        assert x == x' && y == y' && p == p';
      }
    }

    /** draw_line_b: the pixels of `LinePoints`, drawn in order. */
    method DrawLineB(x0: int, y0: int, x1: int, y1: int, color: Color)
      requires Valid() && Admits(x0, y0, width, height) && Admits(x1, y1, width, height)
      modifies data
      ensures data[..] == Paint(old(data[..]), LinePoints(x0, y0, x1, y1), color, width)
    {
      LineAdmitted(x0, y0, x1, y1, width, height);
      LineAsLoop(x0, y0, x1, y1);
      var dx, dy := Abs(x1 - x0), Abs(y1 - y0);
      var xInc := if x1 > x0 then 1 else -1;
      var yInc := if y1 > y0 then 1 else -1;
      if dx >= dy {
        WalkX(x0, y0, dx, dy, xInc, yInc, color);
      } else {
        WalkY(x0, y0, dx, dy, xInc, yInc, color);
      }
    }
  }
}
