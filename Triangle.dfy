/** Triangle set-up of src/triangle.cpp: the y-sort of the vertices, the
    wireframe of three Bresenham lines, the flat-bottom and flat-top
    scanline passes shared by draw_filled_triangle and
    draw_textured_triangle, and the texel bounds check of draw_texel.
    Coordinates are integers; the `f32` slopes and row extents are modelled
    as exact reals, so rounding of the accumulated extents is not. */
module Triangle {
  import opened Ints
  import opened Display

  // ---------------------------------------------------------------------
  // Vertex order

  /** r holds a, b and c in some order. */
  predicate Perm3<T(==)>(r: (T, T, T), a: T, b: T, c: T)
  {
    || r == (a, b, c) || r == (a, c, b) || r == (b, a, c)
    || r == (b, c, a) || r == (c, a, b) || r == (c, b, a)
  }

  /** The three conditional swaps that order the vertices by y; a vertex
      is moved as a whole. */
  function SortY(p0: Point, p1: Point, p2: Point): (r: (Point, Point, Point))
    ensures r.0.y <= r.1.y <= r.2.y
    ensures Perm3(r, p0, p1, p2)
  {
    var (a0, a2) := if p0.y >= p2.y then (p2, p0) else (p0, p2);
    var (b0, b1) := if a0.y >= p1.y then (p1, a0) else (a0, p1);
    var (c1, c2) := if b1.y >= a2.y then (a2, b1) else (b1, a2);
    (b0, c1, c2)
  }

  /** The swaps of draw_filled_triangle, which exchange the y and the x
      coordinates of two vertices separately. */
  method SortByY(x0: int, y0: int, x1: int, y1: int, x2: int, y2: int)
    returns (sx0: int, sy0: int, sx1: int, sy1: int, sx2: int, sy2: int)
    ensures (Point(sx0, sy0), Point(sx1, sy1), Point(sx2, sy2))
         == SortY(Point(x0, y0), Point(x1, y1), Point(x2, y2))
  {
    sx0, sy0, sx1, sy1, sx2, sy2 := x0, y0, x1, y1, x2, y2;
    if sy0 >= sy2 {
      sy0, sy2 := sy2, sy0;
      sx0, sx2 := sx2, sx0;
    }
    if sy0 >= sy1 {
      sy0, sy1 := sy1, sy0;
      sx0, sx1 := sx1, sx0;
    }
    if sy1 >= sy2 {
      sy1, sy2 := sy2, sy1;
      sx1, sx2 := sx2, sx1;
    }
  }

  /** A vertex of a textured triangle with its texture coordinates. */
  datatype Corner = Corner(x: int, y: int, u: real, v: real)

  /** The same three swaps, carrying the texture coordinates along. */
  function SortCornersY(c0: Corner, c1: Corner, c2: Corner): (r: (Corner, Corner, Corner))
    ensures r.0.y <= r.1.y <= r.2.y
    ensures Perm3(r, c0, c1, c2)
  {
    var (a0, a2) := if c0.y >= c2.y then (c2, c0) else (c0, c2);
    var (b0, b1) := if a0.y >= c1.y then (c1, a0) else (a0, c1);
    var (d1, d2) := if b1.y >= a2.y then (a2, b1) else (b1, a2);
    (b0, d1, d2)
  }

  /** The swaps of draw_textured_triangle.  The source exchanges y, x, u
      and v of two vertices one by one; as all four are exchanged under
      the same condition, the model exchanges the corners whole. */
  method SortCornersByY(c0: Corner, c1: Corner, c2: Corner) returns (s0: Corner, s1: Corner, s2: Corner)
    ensures (s0, s1, s2) == SortCornersY(c0, c1, c2)
  {
    s0, s1, s2 := c0, c1, c2;
    if s0.y >= s2.y {
      s0, s2 := s2, s0;
    }
    if s0.y >= s1.y {
      s0, s1 := s1, s0;
    }
    if s1.y >= s2.y {
      s1, s2 := s2, s1;
    }
  }

  // ---------------------------------------------------------------------
  // Wireframe (draw_triangle)

  /** The pixels of the wireframe: the lines v0 -> v1, v1 -> v2, v2 -> v0. */
  function Outline(p0: Point, p1: Point, p2: Point): seq<Point>
  {
    LinePoints(p0.x, p0.y, p1.x, p1.y) + LinePoints(p1.x, p1.y, p2.x, p2.y) + LinePoints(p2.x, p2.y, p0.x, p0.y)
  }

  /** draw_triangle: three Bresenham lines, one after the other. */
  method DrawTriangle(fb: FrameBuffer, x0: int, y0: int, x1: int, y1: int, x2: int, y2: int, color: Color)
    requires fb.Valid()
    requires Admits(x0, y0, fb.width, fb.height) && Admits(x1, y1, fb.width, fb.height)
    requires Admits(x2, y2, fb.width, fb.height)
    modifies fb.data
    ensures fb.data[..] == Paint(old(fb.data[..]), Outline(Point(x0, y0), Point(x1, y1), Point(x2, y2)), color, fb.width)
  {
    ghost var start := fb.data[..];
    ghost var a, b, c := LinePoints(x0, y0, x1, y1), LinePoints(x1, y1, x2, y2), LinePoints(x2, y2, x0, y0);
    fb.DrawLineB(x0, y0, x1, y1, color);
    fb.DrawLineB(x1, y1, x2, y2, color);
    fb.DrawLineB(x2, y2, x0, y0, color);
    PaintConcat(start, a, b, color, fb.width);
    PaintConcat(start, a + b, c, color, fb.width);
  }

  /** Two pixels are equal or 8-neighbours. */
  predicate Near(p: Point, q: Point)
  {
    Abs(p.x - q.x) <= 1 && Abs(p.y - q.y) <= 1
  }

  /** Consecutive pixels are equal or 8-neighbours. */
  predicate Connected(pts: seq<Point>)
  {
    forall k :: 0 <= k < |pts| - 1 ==> Near(pts[k], pts[k + 1])
  }

  lemma LineConnected(x0: int, y0: int, x1: int, y1: int)
    ensures Connected(LinePoints(x0, y0, x1, y1))
  {
    var pts := LinePoints(x0, y0, x1, y1);
    forall k | 0 <= k < |pts| - 1
      ensures Near(pts[k], pts[k + 1])
    {
      LineSteps(x0, y0, x1, y1, k);
    }
  }

  lemma ConnectedConcat(a: seq<Point>, b: seq<Point>)
    requires Connected(a) && Connected(b) && a != [] && b != []
    requires Near(a[|a| - 1], b[0])
    ensures Connected(a + b)
  {
    var ab := a + b;
    forall k | 0 <= k < |ab| - 1
      ensures Near(ab[k], ab[k + 1])
    {
      if k < |a| - 1 {
        assert ab[k] == a[k] && ab[k + 1] == a[k + 1];
      } else if k == |a| - 1 {
        assert ab[k] == a[|a| - 1] && ab[k + 1] == b[0];
      } else {
        assert ab[k] == b[k - |a|] && ab[k + 1] == b[k - |a| + 1];
      }
    }
  }

  /** The wireframe is a closed 8-connected walk: it starts and ends at v0,
      passes v1 and v2 where one line hands over to the next, and has as
      many pixels as its three lines together. */
  lemma OutlineClosed(p0: Point, p1: Point, p2: Point)
    ensures var a, b, c := LinePoints(p0.x, p0.y, p1.x, p1.y), LinePoints(p1.x, p1.y, p2.x, p2.y),
                          LinePoints(p2.x, p2.y, p0.x, p0.y);
      var o := Outline(p0, p1, p2);
      && |o| == |a| + |b| + |c|
      && o[0] == p0 && o[|a| - 1] == p1 && o[|a|] == p1
      && o[|a| + |b| - 1] == p2 && o[|a| + |b|] == p2 && o[|o| - 1] == p0
      && Connected(o)
  {
    var a, b, c := LinePoints(p0.x, p0.y, p1.x, p1.y), LinePoints(p1.x, p1.y, p2.x, p2.y),
                   LinePoints(p2.x, p2.y, p0.x, p0.y);
    LineEndpoints(p0.x, p0.y, p1.x, p1.y);
    LineEndpoints(p1.x, p1.y, p2.x, p2.y);
    LineEndpoints(p2.x, p2.y, p0.x, p0.y);
    LineConnected(p0.x, p0.y, p1.x, p1.y);
    LineConnected(p1.x, p1.y, p2.x, p2.y);
    LineConnected(p2.x, p2.y, p0.x, p0.y);
    ConnectedConcat(a, b);
    ConnectedConcat(a + b, c);
    assert (a + b)[|a + b| - 1] == b[|b| - 1];
  }

  // ---------------------------------------------------------------------
  // Scanline passes

  /** Conversion of an `f32` to `i32`: truncation toward zero. */
  function Trunc(r: real): (t: int)
    ensures r >= 0.0 ==> t as real <= r < t as real + 1.0
    ensures r < 0.0 ==> t as real - 1.0 < r <= t as real
  {
    if r >= 0.0 then r.Floor else -((-r).Floor)
  }

  /** A value between two integers truncates to a value between them. */
  lemma TruncBetween(r: real, lo: int, hi: int)
    requires lo as real <= r <= hi as real
    ensures lo <= Trunc(r) <= hi
  {
  }

  /** A slope `(f32) n / d`.  When d is 0 the source gets an infinity or
      NaN, but then the pass it belongs to has a single row and the slope
      is never used; the model uses 0. */
  function Ratio(n: int, d: int): real
  {
    if d == 0 then 0.0 else n as real / d as real
  }

  /** `mx`: the x where the horizontal through the middle vertex meets the
      long edge v0 -> v2.  It divides by y2 - y0, so it needs y0 < y2. */
  function MidX(p0: Point, p1: Point, p2: Point): int
    requires p0.y < p2.y
  {
    Trunc(((p2.x - p0.x) * (p1.y - p0.y)) as real / (p2.y - p0.y) as real + p0.x as real)
  }

  /** n / d lies between lo and hi when n lies between lo * d and hi * d. */
  lemma DivBetween(n: real, d: real, lo: real, hi: real)
    requires d > 0.0 && lo * d <= n <= hi * d
    ensures lo <= n / d <= hi
  {
    assert n / d * d == n;
  }

  /** x0 plus a fraction b / d of a, truncated, lies between x0 and x0 + a. */
  lemma FractionBetween(a: int, b: int, d: int, x0: int)
    requires 0 <= b <= d && 0 < d
    ensures Min(x0, x0 + a) <= Trunc((a * b) as real / d as real + x0 as real) <= Max(x0, x0 + a)
  {
    var lo, hi := Min(0, a), Max(0, a);
    assert lo * d <= a * b <= hi * d by {
      if a >= 0 {
        MulMonotone(a, 0, b);
        MulMonotone(a, b, d);
      } else {
        MulMonotone(-a, 0, b);
        MulMonotone(-a, b, d);
      }
    }
    var r := (a * b) as real / d as real;
    assert lo as real <= r <= hi as real by {
      DivBetween((a * b) as real, d as real, lo as real, hi as real);
    }
    TruncBetween(r + x0 as real, x0 + lo, x0 + hi);
  }

  /** For sorted vertices the split point lies on the long edge, between
      the x of v0 and the x of v2. */
  lemma MidXBetween(p0: Point, p1: Point, p2: Point)
    requires p0.y <= p1.y <= p2.y && p0.y < p2.y
    ensures Min(p0.x, p2.x) <= MidX(p0, p1, p2) <= Max(p0.x, p2.x)
  {
    FractionBetween(p2.x - p0.x, p1.y - p0.y, p2.y - p0.y, p0.x);
  }

  /** The slope pair of the flat-bottom pass, swapped into order. */
  function Ascending(a: real, b: real): (r: (real, real))
    ensures r.0 <= r.1 && (r == (a, b) || r == (b, a))
  {
    if a > b then (b, a) else (a, b)
  }

  /** The slope pair of the flat-top pass, swapped into reverse order. */
  function Descending(a: real, b: real): (r: (real, real))
    ensures r.0 >= r.1 && (r == (a, b) || r == (b, a))
  {
    if a < b then (b, a) else (a, b)
  }

  /** The pixels of one row: x from `x` while x <= xEnd. */
  function Span(x: int, xEnd: real, y: int): seq<Point>
    decreases xEnd.Floor + 1 - x
  {
    if x as real <= xEnd then [Point(x, y)] + Span(x + 1, xEnd, y) else []
  }

  /** One row of the flat-bottom pass: the first span split off the rest,
      each admitted and painted before the rest. */
  lemma BottomRowsStep(buf: seq<Color>, xs: real, xe: real, s1: real, s2: real, y: int, yEnd: int, b: Brush, width: nat, height: nat)
    requires BrushOk(b) && y <= yEnd
    requires StrokeAdmitted(BottomRows(xs, xe, s1, s2, y, yEnd), b, width, height)
    ensures StrokeAdmitted(Span(Trunc(xs), xe, y), b, width, height)
    ensures StrokeAdmitted(BottomRows(xs + s1, xe + s2, s1, s2, y + 1, yEnd), b, width, height)
    ensures Stroke(buf, BottomRows(xs, xe, s1, s2, y, yEnd), b, width)
         == Stroke(Stroke(buf, Span(Trunc(xs), xe, y), b, width), BottomRows(xs + s1, xe + s2, s1, s2, y + 1, yEnd), b, width)
  {
    var row, rest := Span(Trunc(xs), xe, y), BottomRows(xs + s1, xe + s2, s1, s2, y + 1, yEnd);
    assert BottomRows(xs, xe, s1, s2, y, yEnd) == row + rest;
    StrokeAdmittedConcat(row, rest, b, width, height);
    StrokeConcat(buf, row, rest, b, width);
  }

  /** One row of the flat-top pass, split off as in BottomRowsStep. */
  lemma TopRowsStep(buf: seq<Color>, xs: real, xe: real, s1: real, s2: real, y: int, yEnd: int, b: Brush, width: nat, height: nat)
    requires BrushOk(b) && y >= yEnd
    requires StrokeAdmitted(TopRows(xs, xe, s1, s2, y, yEnd), b, width, height)
    ensures StrokeAdmitted(Span(Trunc(xs), xe, y), b, width, height)
    ensures StrokeAdmitted(TopRows(xs - s1, xe - s2, s1, s2, y - 1, yEnd), b, width, height)
    ensures Stroke(buf, TopRows(xs, xe, s1, s2, y, yEnd), b, width)
         == Stroke(Stroke(buf, Span(Trunc(xs), xe, y), b, width), TopRows(xs - s1, xe - s2, s1, s2, y - 1, yEnd), b, width)
  {
    var row, rest := Span(Trunc(xs), xe, y), TopRows(xs - s1, xe - s2, s1, s2, y - 1, yEnd);
    assert TopRows(xs, xe, s1, s2, y, yEnd) == row + rest;
    StrokeAdmittedConcat(row, rest, b, width, height);
    StrokeConcat(buf, row, rest, b, width);
  }

  /** The flat-bottom pass: rows y up to yEnd, each from the truncated start
      to the end, both moving by their slope from row to row. */
  function BottomRows(xs: real, xe: real, s1: real, s2: real, y: int, yEnd: int): seq<Point>
    decreases yEnd + 1 - y
  {
    if y > yEnd then [] else Span(Trunc(xs), xe, y) + BottomRows(xs + s1, xe + s2, s1, s2, y + 1, yEnd)
  }

  /** The flat-top pass: rows y down to yEnd, with the extents moving back
      by their slope from row to row. */
  function TopRows(xs: real, xe: real, s1: real, s2: real, y: int, yEnd: int): seq<Point>
    decreases y + 1 - yEnd
  {
    if y < yEnd then [] else Span(Trunc(xs), xe, y) + TopRows(xs - s1, xe - s2, s1, s2, y - 1, yEnd)
  }

  /** An extent after k rows: x with the step added k times, as the passes
      accumulate it. */
  function Extent(x: real, step: real, k: nat): real
    decreases k
  {
    if k == 0 then x else Extent(x + step, step, k - 1)
  }

  /** The accumulated extent is the line x + k * step. */
  lemma {:induction false} ExtentLine(x: real, step: real, k: nat)
    ensures Extent(x, step, k) == x + k as real * step
    decreases k
  {
    if k > 0 {
      ExtentLine(x + step, step, k - 1);
      assert (k - 1) as real * step + step == k as real * step;
    }
  }

  /** Extents grow monotonically in their start and step. */
  lemma {:induction false} ExtentOrder(x: real, s: real, x': real, s': real, k: nat)
    requires x <= x' && s <= s'
    ensures Extent(x, s, k) <= Extent(x', s', k)
    decreases k
  {
    if k > 0 {
      ExtentOrder(x + s, s, x' + s', s', k - 1);
    }
  }

  /** The slopes of both passes for sorted vertices. */
  function Slopes(p0: Point, p1: Point, p2: Point): (r: (real, real, real, real))
    requires p0.y < p2.y
    ensures r.0 <= r.1 && r.2 >= r.3
  {
    var mx := MidX(p0, p1, p2);
    var (s1, s2) := Ascending(Ratio(p1.x - p0.x, p1.y - p0.y), Ratio(mx - p0.x, p1.y - p0.y));
    var (t1, t2) := Descending(Ratio(p2.x - p1.x, p2.y - p1.y), Ratio(p2.x - mx, p2.y - p1.y));
    (s1, s2, t1, t2)
  }

  /** The pixels of both passes for vertices sorted by y. */
  function ScanPoints(p0: Point, p1: Point, p2: Point): seq<Point>
    requires p0.y < p2.y
  {
    var sl := Slopes(p0, p1, p2);
    BottomRows(p0.x as real, p0.x as real, sl.0, sl.1, p0.y, p1.y)
      + TopRows(p2.x as real, p2.x as real, sl.2, sl.3, p2.y, p1.y)
  }

  /** Whether the three vertices lie on one row, where `mx` is undefined. */
  predicate Flat(p0: Point, p1: Point, p2: Point)
  {
    p0.y == p1.y == p2.y
  }

  /** The pixels draw_filled_triangle draws, in order. */
  function FilledPoints(p0: Point, p1: Point, p2: Point): seq<Point>
    requires !Flat(p0, p1, p2)
  {
    var s := SortY(p0, p1, p2);
    ScanPoints(s.0, s.1, s.2)
  }

  /** A row holds exactly the pixels from its start to its end. */
  lemma {:induction false} SpanMember(x: int, xEnd: real, y: int, q: Point)
    ensures q in Span(x, xEnd, y) <==> q.y == y && x <= q.x && q.x as real <= xEnd
    decreases xEnd.Floor + 1 - x
  {
    if x as real <= xEnd {
      SpanMember(x + 1, xEnd, y, q);
    }
  }

  /** Row y + k of the flat-bottom pass is the span between the extents
      after k rows, for the rows y to yEnd. */
  lemma {:induction false} BottomMember(xs: real, xe: real, s1: real, s2: real, y: int, yEnd: int, q: Point)
    ensures q in BottomRows(xs, xe, s1, s2, y, yEnd) <==>
      y <= q.y <= yEnd && q in Span(Trunc(Extent(xs, s1, q.y - y)), Extent(xe, s2, q.y - y), q.y)
    decreases yEnd + 1 - y
  {
    if y <= yEnd {
      var row, rest := Span(Trunc(xs), xe, y), BottomRows(xs + s1, xe + s2, s1, s2, y + 1, yEnd);
      assert BottomRows(xs, xe, s1, s2, y, yEnd) == row + rest;
      BottomMember(xs + s1, xe + s2, s1, s2, y + 1, yEnd, q);
      SpanMember(Trunc(xs), xe, y, q);
      if q.y > y {
        assert q !in row;
      } else if q.y == y {
        assert q !in rest;
      }
    }
  }

  /** Row y - k of the flat-top pass is the span between the extents after
      k rows, each step taking the slope off, for the rows y down to yEnd. */
  lemma {:induction false} TopMember(xs: real, xe: real, s1: real, s2: real, y: int, yEnd: int, q: Point)
    ensures q in TopRows(xs, xe, s1, s2, y, yEnd) <==>
      yEnd <= q.y <= y && q in Span(Trunc(Extent(xs, -s1, y - q.y)), Extent(xe, -s2, y - q.y), q.y)
    decreases y + 1 - yEnd
  {
    if y >= yEnd {
      var row, rest := Span(Trunc(xs), xe, y), TopRows(xs - s1, xe - s2, s1, s2, y - 1, yEnd);
      assert TopRows(xs, xe, s1, s2, y, yEnd) == row + rest;
      TopMember(xs - s1, xe - s2, s1, s2, y - 1, yEnd, q);
      SpanMember(Trunc(xs), xe, y, q);
      if q.y < y {
        assert q !in row;
        assert Extent(xs - s1, -s1, y - 1 - q.y) == Extent(xs, -s1, y - q.y);
        assert Extent(xe - s2, -s2, y - 1 - q.y) == Extent(xe, -s2, y - q.y);
      } else if q.y == y {
        assert q !in rest;
      }
    }
  }

  /** The first x of row y of the flat-bottom pass: x0 + k s1 after k rows. */
  function BottomStart(p0: Point, p1: Point, p2: Point, y: int): real
    requires p0.y < p2.y && p0.y <= y
  {
    Extent(p0.x as real, Slopes(p0, p1, p2).0, y - p0.y)
  }

  /** The last x of row y of the flat-bottom pass. */
  function BottomEnd(p0: Point, p1: Point, p2: Point, y: int): real
    requires p0.y < p2.y && p0.y <= y
  {
    Extent(p0.x as real, Slopes(p0, p1, p2).1, y - p0.y)
  }

  /** The first x of row y of the flat-top pass: x2 - k t1 after k rows up. */
  function TopStart(p0: Point, p1: Point, p2: Point, y: int): real
    requires p0.y < p2.y && y <= p2.y
  {
    Extent(p2.x as real, -Slopes(p0, p1, p2).2, p2.y - y)
  }

  /** The last x of row y of the flat-top pass. */
  function TopEnd(p0: Point, p1: Point, p2: Point, y: int): real
    requires p0.y < p2.y && y <= p2.y
  {
    Extent(p2.x as real, -Slopes(p0, p1, p2).3, p2.y - y)
  }

  /** q is a pixel of the flat-bottom pass: rows y0..y1. */
  predicate InBottomPass(p0: Point, p1: Point, p2: Point, q: Point)
    requires p0.y < p2.y
  {
    p0.y <= q.y <= p1.y && Trunc(BottomStart(p0, p1, p2, q.y)) <= q.x && q.x as real <= BottomEnd(p0, p1, p2, q.y)
  }

  /** q is a pixel of the flat-top pass: rows y1..y2. */
  predicate InTopPass(p0: Point, p1: Point, p2: Point, q: Point)
    requires p0.y < p2.y && p1.y <= p2.y
  {
    p1.y <= q.y <= p2.y && Trunc(TopStart(p0, p1, p2, q.y)) <= q.x && q.x as real <= TopEnd(p0, p1, p2, q.y)
  }

  /** The pixels of both passes are exactly the pixels between the extents
      of the rows y0..y1 of the flat-bottom pass and y1..y2 of the flat-top
      pass; row y1 belongs to both. */
  lemma ScanRows(p0: Point, p1: Point, p2: Point, q: Point)
    requires p0.y <= p1.y <= p2.y && p0.y < p2.y
    ensures q in ScanPoints(p0, p1, p2) <==> InBottomPass(p0, p1, p2, q) || InTopPass(p0, p1, p2, q)
  {
    var sl := Slopes(p0, p1, p2);
    var x0, x2 := p0.x as real, p2.x as real;
    BottomMember(x0, x0, sl.0, sl.1, p0.y, p1.y, q);
    TopMember(x2, x2, sl.2, sl.3, p2.y, p1.y, q);
    if p0.y <= q.y {
      SpanMember(Trunc(BottomStart(p0, p1, p2, q.y)), BottomEnd(p0, p1, p2, q.y), q.y, q);
    }
    if q.y <= p2.y {
      SpanMember(Trunc(TopStart(p0, p1, p2, q.y)), TopEnd(p0, p1, p2, q.y), q.y, q);
    }
  }

  /** Because the slopes are put in order, no row is empty: each row of
      either pass whose start is not negative contains its first pixel. */
  lemma RowsNotEmpty(p0: Point, p1: Point, p2: Point, y: int)
    requires p0.y <= p1.y <= p2.y && p0.y < p2.y
    ensures p0.y <= y <= p1.y && BottomStart(p0, p1, p2, y) >= 0.0
      ==> Point(Trunc(BottomStart(p0, p1, p2, y)), y) in ScanPoints(p0, p1, p2)
    ensures p1.y <= y <= p2.y && TopStart(p0, p1, p2, y) >= 0.0
      ==> Point(Trunc(TopStart(p0, p1, p2, y)), y) in ScanPoints(p0, p1, p2)
  {
    var sl := Slopes(p0, p1, p2);
    if p0.y <= y <= p1.y {
      ExtentOrder(p0.x as real, sl.0, p0.x as real, sl.1, y - p0.y);
      ScanRows(p0, p1, p2, Point(Trunc(BottomStart(p0, p1, p2, y)), y));
    }
    if p1.y <= y <= p2.y {
      ExtentOrder(p2.x as real, -sl.2, p2.x as real, -sl.3, p2.y - y);
      ScanRows(p0, p1, p2, Point(Trunc(TopStart(p0, p1, p2, y)), y));
    }
  }

  // ---------------------------------------------------------------------
  // Texels (draw_texel)

  const TEXTURE_WIDTH: nat := 64
  const TEXTURE_HEIGHT: nat := 64

  /** `i = texture_width * tex_y + tex_x`, computed in `u32`. */
  function TexelIndex(tx: nat, ty: nat): nat
  {
    U32(TEXTURE_WIDTH * ty + tx)
  }

  /** The buffer after draw_texel at (x, y) with texture coordinates
      (tx, ty): the texel is written only when its index passes the check. */
  function Texel(buf: seq<Color>, x: int, y: int, tx: nat, ty: nat, texture: seq<Color>, width: nat): seq<Color>
    requires |texture| >= TEXTURE_WIDTH * TEXTURE_HEIGHT
  {
    var i := TexelIndex(tx, ty);
    if i < TEXTURE_WIDTH * TEXTURE_HEIGHT then Write(buf, x, y, texture[i], width) else buf
  }

  /** draw_texel writes `texture[i]` at (x, y) exactly when i < 4096 and
      changes nothing otherwise. */
  lemma TexelEffect(buf: seq<Color>, x: int, y: int, tx: nat, ty: nat, texture: seq<Color>, width: nat, k: int)
    requires |texture| >= TEXTURE_WIDTH * TEXTURE_HEIGHT && 0 <= k < |buf|
    ensures var i := TexelIndex(tx, ty);
      Texel(buf, x, y, tx, ty, texture, width)[k]
        == if i < 4096 && k == Cell(x, y, width) then texture[i] else buf[k]
  {
  }

  /** The check is on the flat index only: a u coordinate one past the last
      column is admitted and reads the first texel of the next row, and a
      v coordinate of 2^26 wraps the `u32` index round to texel 0. */
  lemma TexelCheckQuirks()
    ensures TexelIndex(64, 0) == TexelIndex(0, 1) == 64
    ensures TexelIndex(0, 0x400_0000) == 0
    ensures TexelIndex(63, 63) == 4095 && TexelIndex(0, 64) == 4096
  {
  }

  /** How a pass paints its pixels: in one colour (draw_filled_triangle) or
      with the texel that `coord` picks for the pixel (draw_textured_triangle;
      `coord` stands for the barycentric interpolation of u and v, scaled by
      the texture size, made absolute and truncated). */
  datatype Brush =
    | Solid(color: Color)
    | Textured(coord: Point -> (nat, nat), texture: seq<Color>)

  predicate BrushOk(b: Brush)
  {
    b.Textured? ==> |b.texture| >= TEXTURE_WIDTH * TEXTURE_HEIGHT
  }

  /** Whether painting p with brush b writes a pixel at all. */
  predicate Draws(b: Brush, p: Point)
  {
    b.Solid? || TexelIndex(b.coord(p).0, b.coord(p).1) < TEXTURE_WIDTH * TEXTURE_HEIGHT
  }

  /** The buffer after painting one pixel with the brush. */
  function Dab(buf: seq<Color>, p: Point, b: Brush, width: nat): seq<Color>
    requires BrushOk(b)
  {
    match b
    case Solid(c) => Write(buf, p.x, p.y, c, width)
    case Textured(coord, texture) => Texel(buf, p.x, p.y, coord(p).0, coord(p).1, texture, width)
  }

  /** The buffer after painting the pixels in order with the brush. */
  function Stroke(buf: seq<Color>, pts: seq<Point>, b: Brush, width: nat): (r: seq<Color>)
    requires BrushOk(b)
    ensures |r| == |buf|
    decreases |pts|
  {
    if pts == [] then buf else Stroke(Dab(buf, pts[0], b, width), pts[1..], b, width)
  }

  /** Every pixel the brush writes passes draw_pixel's assertion. */
  predicate StrokeAdmitted(pts: seq<Point>, b: Brush, width: nat, height: nat)
  {
    forall i :: 0 <= i < |pts| && Draws(b, pts[i]) ==> Admits(pts[i].x, pts[i].y, width, height)
  }

  /** With a solid brush a stroke is the fold of draw_pixel. */
  lemma {:induction false} StrokeSolid(buf: seq<Color>, pts: seq<Point>, c: Color, width: nat)
    ensures Stroke(buf, pts, Solid(c), width) == Paint(buf, pts, c, width)
    decreases |pts|
  {
    if pts != [] {
      StrokeSolid(Write(buf, pts[0].x, pts[0].y, c, width), pts[1..], c, width);
    }
  }

  lemma {:induction false} StrokeConcat(buf: seq<Color>, a: seq<Point>, c: seq<Point>, b: Brush, width: nat)
    requires BrushOk(b)
    ensures Stroke(buf, a + c, b, width) == Stroke(Stroke(buf, a, b, width), c, b, width)
    decreases |a|
  {
    if a == [] {
      assert a + c == c;
    } else {
      StrokeConcat(Dab(buf, a[0], b, width), a[1..], c, b, width);
      assert (a + c)[1..] == a[1..] + c;
    }
  }

  lemma StrokeAdmittedConcat(a: seq<Point>, c: seq<Point>, b: Brush, width: nat, height: nat)
    ensures StrokeAdmitted(a + c, b, width, height) <==> StrokeAdmitted(a, b, width, height) && StrokeAdmitted(c, b, width, height)
  {
    if StrokeAdmitted(a + c, b, width, height) {
      forall i | 0 <= i < |c| && Draws(b, c[i])
        ensures Admits(c[i].x, c[i].y, width, height)
      {
        assert (a + c)[|a| + i] == c[i];
      }
      forall i | 0 <= i < |a| && Draws(b, a[i])
        ensures Admits(a[i].x, a[i].y, width, height)
      {
        assert (a + c)[i] == a[i];
      }
    }
    if StrokeAdmitted(a, b, width, height) && StrokeAdmitted(c, b, width, height) {
      forall i | 0 <= i < |a + c| && Draws(b, (a + c)[i])
        ensures Admits((a + c)[i].x, (a + c)[i].y, width, height)
      {
        if i >= |a| {
          assert (a + c)[i] == c[i - |a|];
        }
      }
    }
  }

  /** draw_texel with the coordinates already reduced to (tx, ty). */
  method DrawTexel(fb: FrameBuffer, x: int, y: int, tx: nat, ty: nat, texture: seq<Color>)
    requires fb.Valid() && |texture| >= TEXTURE_WIDTH * TEXTURE_HEIGHT
    requires TexelIndex(tx, ty) < TEXTURE_WIDTH * TEXTURE_HEIGHT ==> Admits(x, y, fb.width, fb.height)
    modifies fb.data
    ensures fb.data[..] == Texel(old(fb.data[..]), x, y, tx, ty, texture, fb.width)
  {
    var i := U32(TEXTURE_WIDTH * ty + tx);
    if i < TEXTURE_WIDTH * TEXTURE_HEIGHT {
      fb.DrawPixel(x, y, texture[i]);
    }
  }

  /** One pixel painted with the brush: draw_pixel or draw_texel. */
  method DrawDab(fb: FrameBuffer, p: Point, b: Brush)
    requires fb.Valid() && BrushOk(b)
    requires Draws(b, p) ==> Admits(p.x, p.y, fb.width, fb.height)
    modifies fb.data
    ensures fb.data[..] == Dab(old(fb.data[..]), p, b, fb.width)
  {
    match b
    case Solid(c) => fb.DrawPixel(p.x, p.y, c);
    case Textured(coord, texture) => DrawTexel(fb, p.x, p.y, coord(p).0, coord(p).1, texture);
  }

  /** The inner loop of a pass: `for (i32 x = x_start; x <= x_end; x++)`. */
  method DrawSpan(fb: FrameBuffer, x0: int, xEnd: real, y: int, b: Brush)
    requires fb.Valid() && BrushOk(b)
    requires StrokeAdmitted(Span(x0, xEnd, y), b, fb.width, fb.height)
    modifies fb.data
    ensures fb.data[..] == Stroke(old(fb.data[..]), Span(x0, xEnd, y), b, fb.width)
  {
    var x := x0;
    while x as real <= xEnd
      invariant StrokeAdmitted(Span(x, xEnd, y), b, fb.width, fb.height)
      invariant Stroke(fb.data[..], Span(x, xEnd, y), b, fb.width) == Stroke(old(fb.data[..]), Span(x0, xEnd, y), b, fb.width)
      decreases xEnd.Floor + 1 - x
    {
      ghost var rest := Span(x + 1, xEnd, y);
      assert Span(x, xEnd, y) == [Point(x, y)] + rest;
      assert StrokeAdmitted(rest, b, fb.width, fb.height) && (Draws(b, Point(x, y)) ==> Admits(x, y, fb.width, fb.height)) by {
        StrokeAdmittedConcat([Point(x, y)], rest, b, fb.width, fb.height);
      }
      assert Stroke(fb.data[..], [Point(x, y)] + rest, b, fb.width) == Stroke(Dab(fb.data[..], Point(x, y), b, fb.width), rest, b, fb.width) by {
        assert ([Point(x, y)] + rest)[1..] == rest;
      }
      DrawDab(fb, Point(x, y), b);
      x := x + 1;
    }
  }

  /** The flat-bottom pass: `for (i32 y = y0; y <= my; y++)`, the extents
      moving by their slopes after each row. */
  method DrawBottomPass(fb: FrameBuffer, x0: int, s1: real, s2: real, y0: int, my: int, b: Brush)
    requires fb.Valid() && BrushOk(b)
    requires StrokeAdmitted(BottomRows(x0 as real, x0 as real, s1, s2, y0, my), b, fb.width, fb.height)
    modifies fb.data
    ensures fb.data[..] == Stroke(old(fb.data[..]), BottomRows(x0 as real, x0 as real, s1, s2, y0, my), b, fb.width)
  {
    var xStart, xEnd := x0 as real, x0 as real;
    var y := y0;
    while y <= my
      invariant StrokeAdmitted(BottomRows(xStart, xEnd, s1, s2, y, my), b, fb.width, fb.height)
      invariant Stroke(fb.data[..], BottomRows(xStart, xEnd, s1, s2, y, my), b, fb.width)
             == Stroke(old(fb.data[..]), BottomRows(x0 as real, x0 as real, s1, s2, y0, my), b, fb.width)
      decreases my + 1 - y
    {
      BottomRowsStep(fb.data[..], xStart, xEnd, s1, s2, y, my, b, fb.width, fb.height);
      DrawSpan(fb, Trunc(xStart), xEnd, y, b);
      xStart := xStart + s1;
      xEnd := xEnd + s2;
      y := y + 1;
    }
  }

  /** The flat-top pass: `for (i32 y = y2; y >= y1; y--)`, the extents
      moving back by their slopes after each row. */
  method DrawTopPass(fb: FrameBuffer, x2: int, s1: real, s2: real, y2: int, y1: int, b: Brush)
    requires fb.Valid() && BrushOk(b)
    requires StrokeAdmitted(TopRows(x2 as real, x2 as real, s1, s2, y2, y1), b, fb.width, fb.height)
    modifies fb.data
    ensures fb.data[..] == Stroke(old(fb.data[..]), TopRows(x2 as real, x2 as real, s1, s2, y2, y1), b, fb.width)
  {
    var xStart, xEnd := x2 as real, x2 as real;
    var y := y2;
    while y >= y1
      invariant StrokeAdmitted(TopRows(xStart, xEnd, s1, s2, y, y1), b, fb.width, fb.height)
      invariant Stroke(fb.data[..], TopRows(xStart, xEnd, s1, s2, y, y1), b, fb.width)
             == Stroke(old(fb.data[..]), TopRows(x2 as real, x2 as real, s1, s2, y2, y1), b, fb.width)
      decreases y + 1 - y1
    {
      TopRowsStep(fb.data[..], xStart, xEnd, s1, s2, y, y1, b, fb.width, fb.height);
      DrawSpan(fb, Trunc(xStart), xEnd, y, b);
      xStart := xStart - s1;
      xEnd := xEnd - s2;
      y := y - 1;
    }
  }

  /** Both passes over vertices already sorted by y: the split point, the
      slopes, their ordering swaps, then the two row loops. */
  method DrawScan(fb: FrameBuffer, x0: int, y0: int, x1: int, y1: int, x2: int, y2: int, b: Brush)
    requires fb.Valid() && BrushOk(b) && y0 <= y1 <= y2 && y0 < y2
    requires StrokeAdmitted(ScanPoints(Point(x0, y0), Point(x1, y1), Point(x2, y2)), b, fb.width, fb.height)
    modifies fb.data
    ensures fb.data[..] == Stroke(old(fb.data[..]), ScanPoints(Point(x0, y0), Point(x1, y1), Point(x2, y2)), b, fb.width)
  {
    var my := y1;
    var mx := MidX(Point(x0, y0), Point(x1, y1), Point(x2, y2));
    var slope1, slope2 := Ratio(x1 - x0, y1 - y0), Ratio(mx - x0, my - y0);
    if slope1 > slope2 {
      slope1, slope2 := slope2, slope1;
    }
    var top1, top2 := Ratio(x2 - x1, y2 - y1), Ratio(x2 - mx, y2 - my);
    if top1 < top2 {
      top1, top2 := top2, top1;
    }
    ghost var bottom := BottomRows(x0 as real, x0 as real, slope1, slope2, y0, my);
    ghost var top := TopRows(x2 as real, x2 as real, top1, top2, y2, my);
    ghost var start := fb.data[..];
    assert ScanPoints(Point(x0, y0), Point(x1, y1), Point(x2, y2)) == bottom + top;
    StrokeAdmittedConcat(bottom, top, b, fb.width, fb.height);
    DrawBottomPass(fb, x0, slope1, slope2, y0, my, b);
    DrawTopPass(fb, x2, top1, top2, y2, my, b);
    StrokeConcat(start, bottom, top, b, fb.width);
  }

  /** draw_filled_triangle: sort, then both passes in one colour. */
  method DrawFilledTriangle(fb: FrameBuffer, x0: int, y0: int, x1: int, y1: int, x2: int, y2: int, color: Color)
    requires fb.Valid() && !Flat(Point(x0, y0), Point(x1, y1), Point(x2, y2))
    requires AllAdmitted(FilledPoints(Point(x0, y0), Point(x1, y1), Point(x2, y2)), fb.width, fb.height)
    modifies fb.data
    ensures fb.data[..] == Paint(old(fb.data[..]), FilledPoints(Point(x0, y0), Point(x1, y1), Point(x2, y2)), color, fb.width)
  {
    var sx0, sy0, sx1, sy1, sx2, sy2 := SortByY(x0, y0, x1, y1, x2, y2);
    ghost var pts := FilledPoints(Point(x0, y0), Point(x1, y1), Point(x2, y2));
    assert pts == ScanPoints(Point(sx0, sy0), Point(sx1, sy1), Point(sx2, sy2));
    ghost var start := fb.data[..];
    DrawScan(fb, sx0, sy0, sx1, sy1, sx2, sy2, Solid(color));
    StrokeSolid(start, pts, color, fb.width);
  }

  /** The pixels draw_textured_triangle visits, for corners sorted by y. */
  function TexturedPoints(c0: Corner, c1: Corner, c2: Corner): seq<Point>
    requires !Flat(Point(c0.x, c0.y), Point(c1.x, c1.y), Point(c2.x, c2.y))
  {
    var s := SortCornersY(c0, c1, c2);
    ScanPoints(Point(s.0.x, s.0.y), Point(s.1.x, s.1.y), Point(s.2.x, s.2.y))
  }

  /** The brush of draw_textured_triangle: `texCoord` gives the texture
      coordinates for a pixel from the three corners in sorted order. */
  function TextureBrush(texCoord: (Corner, Corner, Corner, Point) -> (nat, nat), c0: Corner, c1: Corner, c2: Corner,
                        texture: seq<Color>): Brush
  {
    var s := SortCornersY(c0, c1, c2);
    Textured(p => texCoord(s.0, s.1, s.2, p), texture)
  }

  /** draw_textured_triangle: sort the corners with their texture
      coordinates, then both passes with draw_texel. */
  method DrawTexturedTriangle(fb: FrameBuffer, c0: Corner, c1: Corner, c2: Corner, texture: seq<Color>,
                              texCoord: (Corner, Corner, Corner, Point) -> (nat, nat))
    requires fb.Valid() && |texture| >= TEXTURE_WIDTH * TEXTURE_HEIGHT
    requires !Flat(Point(c0.x, c0.y), Point(c1.x, c1.y), Point(c2.x, c2.y))
    requires StrokeAdmitted(TexturedPoints(c0, c1, c2), TextureBrush(texCoord, c0, c1, c2, texture), fb.width, fb.height)
    modifies fb.data
    ensures fb.data[..] == Stroke(old(fb.data[..]), TexturedPoints(c0, c1, c2), TextureBrush(texCoord, c0, c1, c2, texture), fb.width)
  {
    var s0, s1, s2 := SortCornersByY(c0, c1, c2);
    var brush := Textured(p => texCoord(s0, s1, s2, p), texture);
    assert TexturedPoints(c0, c1, c2) == ScanPoints(Point(s0.x, s0.y), Point(s1.x, s1.y), Point(s2.x, s2.y));
    DrawScan(fb, s0.x, s0.y, s1.x, s1.y, s2.x, s2.y, brush);
  }
}
