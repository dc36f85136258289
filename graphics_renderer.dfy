/**
 * The parts of the board renderer that are plain computation: the
 * Cohen–Sutherland clipping of a line segment to a rectangle, and the
 * mapping of callout alignments to the board's alignment codes and to the
 * SVG text attributes. The board calls themselves are not modelled.
 */
module GraphicsRenderer {
  import opened Models
  import opened GraphicsModels

  // ---------------------------------------------------------------------
  // Outcodes
  // ---------------------------------------------------------------------

  const Inside: bv4 := 0
  const Left: bv4 := 1
  const Right: bv4 := 2
  const Bottom: bv4 := 4
  const Top: bv4 := 8

  /** The clipping rectangle as its four bounds. */
  datatype Rect = Rect(xMin: real, xMax: real, yMin: real, yMax: real)

  /** Bounds of the rectangle with top-left corner (x, y) and the given size. */
  function RectOf(rectX: real, rectY: real, rectWidth: real, rectHeight: real): (r: Rect)
    ensures r.xMax - r.xMin == rectWidth && r.yMax - r.yMin == rectHeight
    ensures r.xMin == rectX && r.yMin == rectY
  {
    Rect(rectX, rectX + rectWidth, rectY, rectY + rectHeight)
  }

  /**
   * Which sides of the rectangle a point lies beyond. Left and right exclude
   * each other (left is checked first), and so do top and bottom; a point on
   * the boundary is inside.
   */
  function Outcode(r: Rect, x: real, y: real): (code: bv4)
    ensures code & Left != 0 <==> x < r.xMin
    ensures code & Right != 0 <==> !(x < r.xMin) && x > r.xMax
    ensures code & Top != 0 <==> y < r.yMin
    ensures code & Bottom != 0 <==> !(y < r.yMin) && y > r.yMax
    ensures code == Inside <==> r.xMin <= x <= r.xMax && r.yMin <= y <= r.yMax
  {
    var horizontal: bv4 := if x < r.xMin then Left else if x > r.xMax then Right else Inside;
    var vertical: bv4 := if y < r.yMin then Top else if y > r.yMax then Bottom else Inside;
    Inside | horizontal | vertical
  }

  /** How many sides a code names. */
  function SideCount(code: bv4): (n: nat)
    ensures n <= 4 && (n == 0 <==> code == 0)
  {
    (if code & Left != 0 then 1 else 0) + (if code & Right != 0 then 1 else 0)
    + (if code & Bottom != 0 then 1 else 0) + (if code & Top != 0 then 1 else 0)
  }

  /** A code whose sides are among those of another, missing at least one, names fewer sides. */
  lemma FewerSides(a: bv4, b: bv4, bit: bv4)
    requires a & b == a && bit & b != 0 && bit & a == 0
    ensures SideCount(a) < SideCount(b)
  {
  }

  /** A rectangle of non-negative width and height. */
  predicate Proper(r: Rect)
  {
    r.xMin <= r.xMax && r.yMin <= r.yMax
  }

  predicate InsideRect(r: Rect, p: Point)
  {
    r.xMin <= p.x <= r.xMax && r.yMin <= p.y <= r.yMax
  }

  /** `c` lies between `a` and `b` (in either order). */
  predicate Between(a: real, b: real, c: real)
  {
    (a <= c <= b) || (b <= c <= a)
  }

  // ---------------------------------------------------------------------
  // One clipping pass
  // ---------------------------------------------------------------------

  /** The loop's state: the current end points. */
  datatype Ends = Ends(x1: real, y1: real, x2: real, y2: real)

  function Code1(r: Rect, s: Ends): bv4
  {
    Outcode(r, s.x1, s.y1)
  }

  function Code2(r: Rect, s: Ends): bv4
  {
    Outcode(r, s.x2, s.y2)
  }

  /** Neither accepted (some end outside) nor rejected (no side shared): a pass is due. */
  predicate NeedsPass(r: Rect, s: Ends)
  {
    !(Code1(r, s) == 0 && Code2(r, s) == 0) && Code1(r, s) & Code2(r, s) == 0
  }

  /** The end point being clipped is the first one when it is outside, else the second. */
  function ChosenCode(r: Rect, s: Ends): bv4
  {
    if Code1(r, s) != 0 then Code1(r, s) else Code2(r, s)
  }

  /**
   * Where the line through the end points meets the edge line of the first
   * side the chosen code names, in the order top, bottom, right, left. No
   * denominator is zero: the two end points lie on different sides of the
   * edge line.
   */
  function EdgePoint(r: Rect, s: Ends): (p: Point)
    requires Proper(r) && NeedsPass(r, s)
  {
    EdgeSeparates(r, s);
    var code := ChosenCode(r, s);
    if code & Top != 0 then Point(Lerp(s.x1, s.x2, s.y1, s.y2, r.yMin), r.yMin)
    else if code & Bottom != 0 then Point(Lerp(s.x1, s.x2, s.y1, s.y2, r.yMax), r.yMax)
    else if code & Right != 0 then Point(r.xMax, Lerp(s.y1, s.y2, s.x1, s.x2, r.xMax))
    else
      // the code is non-zero, so the only side left is Left
      Point(r.xMin, Lerp(s.y1, s.y2, s.x1, s.x2, r.xMin))
  }

  /** One pass: the chosen end point is replaced by the edge point. */
  function ClipPass(r: Rect, s: Ends): Ends
    requires Proper(r) && NeedsPass(r, s)
  {
    var p := EdgePoint(r, s);
    if ChosenCode(r, s) == Code1(r, s) then Ends(p.x, p.y, s.x2, s.y2) else Ends(s.x1, s.y1, p.x, p.y)
  }

  /** The quotient by a non-zero divisor, times the divisor, gives the dividend back. */
  lemma DivMul(n: real, d: real)
    requires d != 0.0
    ensures (n / d) * d == n
  {
  }

  lemma MulPos(a: real, b: real)
    requires a > 0.0 && b > 0.0
    ensures a * b > 0.0
  {
  }

  /** A part of a whole, divided by the whole, is a fraction between 0 and 1. */
  lemma {:induction false} UnitParameter(n: real, d: real)
    requires d != 0.0 && Between(0.0, d, n)
    ensures 0.0 <= n / d <= 1.0
  {
    var t := n / d;
    DivMul(n, d);
    if t < 0.0 {
      if d > 0.0 { MulPos(-t, d); } else { MulPos(-t, -d); }
    }
    if t > 1.0 {
      if d > 0.0 { MulPos(t - 1.0, d); } else { MulPos(t - 1.0, -d); }
    }
  }

  /** A fraction of a quantity lies between 0 and the quantity. */
  lemma {:induction false} ScaleBetween(a: real, t: real)
    requires 0.0 <= t <= 1.0
    ensures Between(0.0, a, a * t)
  {
    if a > 0.0 {
      if t > 0.0 { MulPos(a, t); }
      if t < 1.0 { MulPos(a, 1.0 - t); }
    } else if a < 0.0 {
      if t > 0.0 { MulPos(-a, t); }
      if t < 1.0 { MulPos(-a, 1.0 - t); }
    }
  }

  /** Multiplying first and dividing after is the same as scaling by the quotient. */
  lemma {:induction false} MulDivAssoc(a: real, n: real, d: real)
    requires d != 0.0
    ensures a * n / d == a * (n / d)
  {
    DivMul(a * n, d);
    DivMul(n, d);
    var l := a * n / d;
    var m := a * (n / d);
    assert m * d == a * ((n / d) * d);
    if l > m {
      if d > 0.0 { MulPos(l - m, d); } else { MulPos(l - m, -d); }
    } else if l < m {
      if d > 0.0 { MulPos(m - l, d); } else { MulPos(m - l, -d); }
    }
  }

  /**
   * The coordinate `a` at which the line through (a1, b1) and (a2, b2)
   * reaches `b == c`, computed the way the clipping loop computes it.
   */
  function Lerp(a1: real, a2: real, b1: real, b2: real, c: real): real
    requires b1 != b2
  {
    a1 + (a2 - a1) * (c - b1) / (b2 - b1)
  }

  /** Interpolating at a value between the two ends gives a value between the two ends. */
  lemma Interpolate(a1: real, a2: real, b1: real, b2: real, c: real)
    requires b1 != b2 && Between(b1, b2, c)
    ensures Between(a1, a2, Lerp(a1, a2, b1, b2, c))
  {
    UnitParameter(c - b1, b2 - b1);
    MulDivAssoc(a2 - a1, c - b1, b2 - b1);
    ScaleBetween(a2 - a1, (c - b1) / (b2 - b1));
  }

  /**
   * The edge line of the side being clipped separates the two end points:
   * the chosen end point is beyond it and the other is not. So the edge
   * value lies between the end points' coordinates, and they differ.
   */
  lemma EdgeSeparates(r: Rect, s: Ends)
    requires Proper(r) && NeedsPass(r, s)
    ensures var code := ChosenCode(r, s);
            && (code & Top != 0 ==> s.y1 != s.y2 && Between(s.y1, s.y2, r.yMin))
            && (code & Top == 0 && code & Bottom != 0 ==> s.y1 != s.y2 && Between(s.y1, s.y2, r.yMax))
            && (code & Top == 0 && code & Bottom == 0 && code & Right != 0 ==>
                  s.x1 != s.x2 && Between(s.x1, s.x2, r.xMax))
            && (code & Top == 0 && code & Bottom == 0 && code & Right == 0 ==>
                  s.x1 != s.x2 && Between(s.x1, s.x2, r.xMin))
  {
  }

  /** The edge point lies between the end points in both coordinates and is off the clipped side. */
  lemma EdgePointBetween(r: Rect, s: Ends)
    requires Proper(r) && NeedsPass(r, s)
    ensures var p := EdgePoint(r, s);
            && Between(s.x1, s.x2, p.x) && Between(s.y1, s.y2, p.y)
            && var code := ChosenCode(r, s);
            && (code & Top != 0 ==> Outcode(r, p.x, p.y) & Top == 0)
            && (code & Top == 0 && code & Bottom != 0 ==> Outcode(r, p.x, p.y) & Bottom == 0)
            && (code & Top == 0 && code & Bottom == 0 && code & Right != 0 ==> Outcode(r, p.x, p.y) & Right == 0)
            && (code & Top == 0 && code & Bottom == 0 && code & Right == 0 ==> Outcode(r, p.x, p.y) & Left == 0)
  {
    EdgeSeparates(r, s);
    var code := ChosenCode(r, s);
    if code & Top != 0 {
      Interpolate(s.x1, s.x2, s.y1, s.y2, r.yMin);
    } else if code & Bottom != 0 {
      Interpolate(s.x1, s.x2, s.y1, s.y2, r.yMax);
    } else if code & Right != 0 {
      Interpolate(s.y1, s.y2, s.x1, s.x2, r.xMax);
    } else {
      Interpolate(s.y1, s.y2, s.x1, s.x2, r.xMin);
    }
  }

  /** A point between two others is beyond only sides that one of them is beyond. */
  lemma OutcodeBetween(r: Rect, x1: real, y1: real, x2: real, y2: real, x: real, y: real)
    requires Between(x1, x2, x) && Between(y1, y2, y)
    ensures Outcode(r, x, y) & (Outcode(r, x1, y1) | Outcode(r, x2, y2)) == Outcode(r, x, y)
  {
  }

  /**
   * A pass clears the side it clips against from both end points and
   * brings in no new side, so the sides named by either end point get
   * fewer; this is why the loop stops.
   */
  lemma PassShrinks(r: Rect, s: Ends)
    requires Proper(r) && NeedsPass(r, s)
    ensures var t := ClipPass(r, s);
            SideCount(Code1(r, t) | Code2(r, t)) < SideCount(Code1(r, s) | Code2(r, s))
  {
    var p := EdgePoint(r, s);
    EdgePointBetween(r, s);
    OutcodeBetween(r, s.x1, s.y1, s.x2, s.y2, p.x, p.y);
    var code := ChosenCode(r, s);
    var bit: bv4 := if code & Top != 0 then Top else if code & Bottom != 0 then Bottom
                    else if code & Right != 0 then Right else Left;
    var t := ClipPass(r, s);
    FewerSides(Code1(r, t) | Code2(r, t), Code1(r, s) | Code2(r, s), bit);
  }

  /** A pass keeps the end points within the box the previous end points span. */
  lemma PassStaysBetween(r: Rect, s: Ends)
    requires Proper(r) && NeedsPass(r, s)
    ensures var t := ClipPass(r, s);
            && Between(s.x1, s.x2, t.x1) && Between(s.x1, s.x2, t.x2)
            && Between(s.y1, s.y2, t.y1) && Between(s.y1, s.y2, t.y2)
  {
    EdgePointBetween(r, s);
  }

  // ---------------------------------------------------------------------
  // The whole clipping
  // ---------------------------------------------------------------------

  function SegmentOf(s: Ends): Segment
  {
    Segment(Point(s.x1, s.y1), Point(s.x2, s.y2))
  }

  /** Accept when both end points are inside, reject when they share a side, else clip once more. */
  function ClipFrom(r: Rect, s: Ends): Option<Segment>
    requires Proper(r)
    decreases SideCount(Code1(r, s) | Code2(r, s))
  {
    if Code1(r, s) == 0 && Code2(r, s) == 0 then Some(SegmentOf(s))
    else if Code1(r, s) & Code2(r, s) != 0 then None
    else
      PassShrinks(r, s);
      ClipFrom(r, ClipPass(r, s))
  }

  /** The intersection with the edge line of the first side the code names, top, bottom, right, left. */
  method Intersection(r: Rect, x1: real, y1: real, x2: real, y2: real, outcode: bv4) returns (x: real, y: real)
    requires Proper(r) && NeedsPass(r, Ends(x1, y1, x2, y2)) && outcode == ChosenCode(r, Ends(x1, y1, x2, y2))
    ensures Point(x, y) == EdgePoint(r, Ends(x1, y1, x2, y2))
  {
    EdgeSeparates(r, Ends(x1, y1, x2, y2));
    if outcode & Top != 0 {
      x := Lerp(x1, x2, y1, y2, r.yMin);
      y := r.yMin;
    } else if outcode & Bottom != 0 {
      x := Lerp(x1, x2, y1, y2, r.yMax);
      y := r.yMax;
    } else if outcode & Right != 0 {
      y := Lerp(y1, y2, x1, x2, r.xMax);
      x := r.xMax;
    } else {
      y := Lerp(y1, y2, x1, x2, r.xMin);
      x := r.xMin;
    }
  }

  /** A pass does not change what the clipping returns. */
  lemma ClipFromPass(r: Rect, s: Ends)
    requires Proper(r) && NeedsPass(r, s)
    ensures ClipFrom(r, ClipPass(r, s)) == ClipFrom(r, s)
  {
  }

  method ClipLineToRect(x1: real, y1: real, x2: real, y2: real,
                        rectX: real, rectY: real, rectWidth: real, rectHeight: real)
    returns (clipped: Option<Segment>)
    requires rectWidth >= 0.0 && rectHeight >= 0.0
    ensures clipped == ClipFrom(RectOf(rectX, rectY, rectWidth, rectHeight), Ends(x1, y1, x2, y2))
  {
    var r := RectOf(rectX, rectY, rectWidth, rectHeight);
    ghost var result := ClipFrom(r, Ends(x1, y1, x2, y2));
    var x1, y1, x2, y2 := x1, y1, x2, y2;
    var outcode1 := Outcode(r, x1, y1);
    var outcode2 := Outcode(r, x2, y2);

    while true
      invariant outcode1 == Outcode(r, x1, y1) && outcode2 == Outcode(r, x2, y2)
      invariant ClipFrom(r, Ends(x1, y1, x2, y2)) == result
      decreases SideCount(outcode1 | outcode2)
    {
      if outcode1 == 0 && outcode2 == 0 {
        return Some(Segment(Point(x1, y1), Point(x2, y2)));
      }
      if outcode1 & outcode2 != 0 {
        return None;
      }
      ghost var s := Ends(x1, y1, x2, y2);
      PassShrinks(r, s);
      ClipFromPass(r, s);
      var outcode := if outcode1 != 0 then outcode1 else outcode2;
      var x, y := Intersection(r, x1, y1, x2, y2, outcode);
      if outcode == outcode1 {
        x1, y1 := x, y;
        outcode1 := Outcode(r, x1, y1);
      } else {
        x2, y2 := x, y;
        outcode2 := Outcode(r, x2, y2);
      }
      assert Ends(x1, y1, x2, y2) == ClipPass(r, s);
    }
  }

  // ---------------------------------------------------------------------
  // Points of a segment
  // ---------------------------------------------------------------------

  /** The point at parameter `t` along the segment: `t` = 0 is the first end point, 1 the second. */
  function At(s: Ends, t: real): Point
  {
    Point(s.x1 + (s.x2 - s.x1) * t, s.y1 + (s.y2 - s.y1) * t)
  }

  /** Scaling by a non-zero factor keeps or reverses the order, by its sign. */
  lemma {:induction false} ScaleCompare(d: real, l: real, m: real)
    requires d != 0.0
    ensures d > 0.0 ==> (d * l <= d * m <==> l <= m)
    ensures d < 0.0 ==> (d * l <= d * m <==> m <= l)
  {
    if l < m {
      if d > 0.0 { MulPos(d, m - l); } else { MulPos(-d, m - l); }
    } else if m < l {
      if d > 0.0 { MulPos(d, l - m); } else { MulPos(-d, l - m); }
    }
  }

  /** The parameter at which the edge line of the side being clipped meets the segment. */
  function EdgeParam(r: Rect, s: Ends): real
    requires Proper(r) && NeedsPass(r, s)
  {
    EdgeSeparates(r, s);
    var code := ChosenCode(r, s);
    if code & Top != 0 then (r.yMin - s.y1) / (s.y2 - s.y1)
    else if code & Bottom != 0 then (r.yMax - s.y1) / (s.y2 - s.y1)
    else if code & Right != 0 then (r.xMax - s.x1) / (s.x2 - s.x1)
    else (r.xMin - s.x1) / (s.x2 - s.x1)
  }

  /** Interpolating at `c` is taking the point at parameter (c - b1) / (b2 - b1), which lies in [0, 1]. */
  lemma {:induction false} LerpAtParam(a1: real, a2: real, b1: real, b2: real, c: real)
    requires b1 != b2 && Between(b1, b2, c)
    ensures var l := (c - b1) / (b2 - b1);
            && 0.0 <= l <= 1.0
            && Lerp(a1, a2, b1, b2, c) == a1 + (a2 - a1) * l
            && c == b1 + (b2 - b1) * l
  {
    UnitParameter(c - b1, b2 - b1);
    MulDivAssoc(a2 - a1, c - b1, b2 - b1);
    DivMul(c - b1, b2 - b1);
  }

  /** Where the segment reaches the height `c` is the point at the parameter of `c`. */
  lemma AtHeight(s: Ends, c: real)
    requires s.y1 != s.y2 && Between(s.y1, s.y2, c)
    ensures var l := (c - s.y1) / (s.y2 - s.y1);
            0.0 <= l <= 1.0 && At(s, l) == Point(Lerp(s.x1, s.x2, s.y1, s.y2, c), c)
  {
    LerpAtParam(s.x1, s.x2, s.y1, s.y2, c);
  }

  /** Where the segment reaches the abscissa `c` is the point at the parameter of `c`. */
  lemma AtAbscissa(s: Ends, c: real)
    requires s.x1 != s.x2 && Between(s.x1, s.x2, c)
    ensures var l := (c - s.x1) / (s.x2 - s.x1);
            0.0 <= l <= 1.0 && At(s, l) == Point(c, Lerp(s.y1, s.y2, s.x1, s.x2, c))
  {
    LerpAtParam(s.y1, s.y2, s.x1, s.x2, c);
  }

  /** The edge point is the point of the segment at the edge parameter, which lies in [0, 1]. */
  lemma EdgeParamAt(r: Rect, s: Ends)
    requires Proper(r) && NeedsPass(r, s)
    ensures 0.0 <= EdgeParam(r, s) <= 1.0 && EdgePoint(r, s) == At(s, EdgeParam(r, s))
  {
    EdgeSeparates(r, s);
    var code := ChosenCode(r, s);
    if code & Top != 0 {
      AtHeight(s, r.yMin);
    } else if code & Bottom != 0 {
      AtHeight(s, r.yMax);
    } else if code & Right != 0 {
      AtAbscissa(s, r.xMax);
    } else {
      AtAbscissa(s, r.xMin);
    }
  }

  /** Along one coordinate, points in order give parameters in the same order when the coordinate grows, reversed when it falls. */
  lemma {:induction false} OrderAlong(b1: real, b2: real, l: real, m: real)
    requires b1 != b2 && b1 + (b2 - b1) * l <= b1 + (b2 - b1) * m
    ensures b1 < b2 ==> l <= m
    ensures b2 < b1 ==> m <= l
  {
    ScaleCompare(b2 - b1, l, m);
  }

  /**
   * A pass cuts off only points beyond the side it clips against: a point
   * of the segment inside the rectangle lies on the kept side of the edge
   * parameter.
   */
  lemma PassKeepsInside(r: Rect, s: Ends, m: real)
    requires Proper(r) && NeedsPass(r, s) && InsideRect(r, At(s, m))
    ensures ChosenCode(r, s) == Code1(r, s) ==> EdgeParam(r, s) <= m
    ensures ChosenCode(r, s) != Code1(r, s) ==> m <= EdgeParam(r, s)
  {
    EdgeSeparates(r, s);
    EdgeParamAt(r, s);
    var l := EdgeParam(r, s);
    var p, q := At(s, l), At(s, m);
    var code := ChosenCode(r, s);
    if code & Top != 0 {
      assert p.y == r.yMin <= q.y;
      OrderAlong(s.y1, s.y2, l, m);
    } else if code & Bottom != 0 {
      assert q.y <= r.yMax == p.y;
      OrderAlong(s.y1, s.y2, m, l);
    } else if code & Right != 0 {
      assert q.x <= r.xMax == p.x;
      OrderAlong(s.x1, s.x2, m, l);
    } else {
      assert p.x == r.xMin <= q.x;
      OrderAlong(s.x1, s.x2, l, m);
    }
  }

  /** The point at `u` along the part after parameter `l` is the point at l + (1 - l)·u of the whole. */
  lemma {:induction false} AtTail(s: Ends, l: real, u: real)
    ensures At(Ends(At(s, l).x, At(s, l).y, s.x2, s.y2), u) == At(s, l + (1.0 - l) * u)
  {
    var dx, dy := s.x2 - s.x1, s.y2 - s.y1;
    assert s.x2 - At(s, l).x == dx - dx * l && s.y2 - At(s, l).y == dy - dy * l;
    assert (dx - dx * l) * u == dx * ((1.0 - l) * u);
    assert (dy - dy * l) * u == dy * ((1.0 - l) * u);
    assert dx * (l + (1.0 - l) * u) == dx * l + dx * ((1.0 - l) * u);
    assert dy * (l + (1.0 - l) * u) == dy * l + dy * ((1.0 - l) * u);
  }

  /** The point at `u` along the part before parameter `l` is the point at l·u of the whole. */
  lemma {:induction false} AtHead(s: Ends, l: real, u: real)
    ensures At(Ends(s.x1, s.y1, At(s, l).x, At(s, l).y), u) == At(s, l * u)
  {
    var dx, dy := s.x2 - s.x1, s.y2 - s.y1;
    assert (dx * l) * u == dx * (l * u);
    assert (dy * l) * u == dy * (l * u);
  }

  /** A parameter between `l` and 1 is l + (1 - l)·u for some u in [0, 1]. */
  lemma {:induction false} TailParam(l: real, m: real) returns (u: real)
    requires 0.0 <= l <= m <= 1.0
    ensures 0.0 <= u <= 1.0 && l + (1.0 - l) * u == m
  {
    if l == 1.0 {
      u := 0.0;
    } else {
      u := (m - l) / (1.0 - l);
      UnitParameter(m - l, 1.0 - l);
      DivMul(m - l, 1.0 - l);
    }
  }

  /** A parameter between 0 and `l` is l·u for some u in [0, 1]. */
  lemma {:induction false} HeadParam(l: real, m: real) returns (u: real)
    requires 0.0 <= m <= l <= 1.0
    ensures 0.0 <= u <= 1.0 && l * u == m
  {
    if l == 0.0 {
      u := 0.0;
    } else {
      u := m / l;
      UnitParameter(m, l);
      DivMul(m, l);
    }
  }

  /** Composing parameters in [0, 1] stays in [0, 1]. */
  lemma {:induction false} ComposeParams(l: real, u: real)
    requires 0.0 <= l <= 1.0 && 0.0 <= u <= 1.0
    ensures 0.0 <= l + (1.0 - l) * u <= 1.0 && 0.0 <= l * u <= 1.0
  {
    ScaleBetween(1.0 - l, u);
    ScaleBetween(l, u);
  }

  /** A pass keeps the part after the edge parameter, or the part before it, by the end point it clips. */
  lemma PassIsPart(r: Rect, s: Ends)
    requires Proper(r) && NeedsPass(r, s)
    ensures var p := At(s, EdgeParam(r, s));
            ClipPass(r, s) == if ChosenCode(r, s) == Code1(r, s) then Ends(p.x, p.y, s.x2, s.y2)
                              else Ends(s.x1, s.y1, p.x, p.y)
  {
    EdgeParamAt(r, s);
  }

  /** The end points of what clipping returns are points of the segment, at parameters in [0, 1]. */
  lemma {:induction false} ClipParams(r: Rect, s: Ends) returns (t1: real, t2: real)
    requires Proper(r)
    ensures ClipFrom(r, s).Some? ==>
              0.0 <= t1 <= 1.0 && 0.0 <= t2 <= 1.0 && ClipFrom(r, s).value == Segment(At(s, t1), At(s, t2))
    decreases SideCount(Code1(r, s) | Code2(r, s))
  {
    t1, t2 := 0.0, 1.0;
    if NeedsPass(r, s) {
      PassShrinks(r, s);
      EdgeParamAt(r, s);
      PassIsPart(r, s);
      var l := EdgeParam(r, s);
      var u1, u2 := ClipParams(r, ClipPass(r, s));
      if ChosenCode(r, s) == Code1(r, s) {
        if ClipFrom(r, s).Some? {
          ComposeParams(l, u1);
          ComposeParams(l, u2);
          AtTail(s, l, u1);
          AtTail(s, l, u2);
        }
        t1, t2 := l + (1.0 - l) * u1, l + (1.0 - l) * u2;
      } else {
        if ClipFrom(r, s).Some? {
          ComposeParams(l, u1);
          ComposeParams(l, u2);
          AtHead(s, l, u1);
          AtHead(s, l, u2);
        }
        t1, t2 := l * u1, l * u2;
      }
    }
  }

  /** End points beyond a common side leave every point between them beyond it too. */
  lemma SharedSideExcludes(r: Rect, s: Ends, m: real)
    requires Code1(r, s) & Code2(r, s) != 0 && 0.0 <= m <= 1.0
    ensures !InsideRect(r, At(s, m))
  {
    ScaleBetween(s.x2 - s.x1, m);
    ScaleBetween(s.y2 - s.y1, m);
  }

  /** Clipping a segment with a point inside the rectangle returns a segment. */
  lemma {:induction false} ClipFindsInside(r: Rect, s: Ends, m: real)
    requires Proper(r) && 0.0 <= m <= 1.0 && InsideRect(r, At(s, m))
    ensures ClipFrom(r, s).Some?
    decreases SideCount(Code1(r, s) | Code2(r, s))
  {
    if Code1(r, s) & Code2(r, s) != 0 {
      SharedSideExcludes(r, s, m);
    } else if NeedsPass(r, s) {
      PassShrinks(r, s);
      EdgeParamAt(r, s);
      PassIsPart(r, s);
      PassKeepsInside(r, s, m);
      var l := EdgeParam(r, s);
      if ChosenCode(r, s) == Code1(r, s) {
        var u := TailParam(l, m);
        AtTail(s, l, u);
        ClipFindsInside(r, ClipPass(r, s), u);
      } else {
        var u := HeadParam(l, m);
        AtHead(s, l, u);
        ClipFindsInside(r, ClipPass(r, s), u);
      }
    }
  }

  /**
   * What clipping returns: a segment with both end points in the rectangle,
   * each a point of the original segment (so also within the box its end
   * points span); a segment already inside comes back unchanged, and one
   * whose end points are both beyond the same side is rejected. A segment
   * comes back exactly when some point of the original lies in the
   * rectangle, so `None` means the segment misses it entirely.
   */
  lemma {:induction false} ClipResult(r: Rect, s: Ends)
    requires Proper(r)
    ensures ClipFrom(r, s).Some? ==>
              var seg := ClipFrom(r, s).value;
              && InsideRect(r, seg.start) && InsideRect(r, seg.end)
              && Between(s.x1, s.x2, seg.start.x) && Between(s.x1, s.x2, seg.end.x)
              && Between(s.y1, s.y2, seg.start.y) && Between(s.y1, s.y2, seg.end.y)
    ensures ClipFrom(r, s).Some? ==> exists t :: 0.0 <= t <= 1.0 && ClipFrom(r, s).value.start == At(s, t)
    ensures ClipFrom(r, s).Some? ==> exists t :: 0.0 <= t <= 1.0 && ClipFrom(r, s).value.end == At(s, t)
    ensures ClipFrom(r, s).Some? <==> exists t :: 0.0 <= t <= 1.0 && InsideRect(r, At(s, t))
    ensures InsideRect(r, Point(s.x1, s.y1)) && InsideRect(r, Point(s.x2, s.y2)) ==> ClipFrom(r, s) == Some(SegmentOf(s))
    ensures Code1(r, s) & Code2(r, s) != 0 ==> ClipFrom(r, s) == None
    decreases SideCount(Code1(r, s) | Code2(r, s))
  {
    if NeedsPass(r, s) {
      PassShrinks(r, s);
      PassStaysBetween(r, s);
      ClipResult(r, ClipPass(r, s));
    }
    var t1, t2 := ClipParams(r, s);
    forall t | 0.0 <= t <= 1.0 && InsideRect(r, At(s, t))
      ensures ClipFrom(r, s).Some?
    {
      ClipFindsInside(r, s, t);
    }
  }

  /**
   * A segment with an end point inside the rectangle is never rejected: the
   * inside end point is never the one being clipped.
   */
  lemma {:induction false} TouchingNeverRejected(r: Rect, s: Ends)
    requires Proper(r) && (Code1(r, s) == 0 || Code2(r, s) == 0)
    ensures ClipFrom(r, s).Some?
    decreases SideCount(Code1(r, s) | Code2(r, s))
  {
    if NeedsPass(r, s) {
      PassShrinks(r, s);
      var t := ClipPass(r, s);
      assert Code1(r, s) == 0 ==> Code1(r, t) == 0;
      assert Code2(r, s) == 0 ==> Code2(r, t) == 0;
      TouchingNeverRejected(r, t);
    }
  }

  /** The clipping loop makes at most four passes, one per side. */
  function Passes(r: Rect, s: Ends): nat
    requires Proper(r)
    decreases SideCount(Code1(r, s) | Code2(r, s))
  {
    if NeedsPass(r, s) then
      PassShrinks(r, s);
      1 + Passes(r, ClipPass(r, s))
    else 0
  }

  lemma {:induction false} AtMostFourPasses(r: Rect, s: Ends)
    requires Proper(r)
    ensures Passes(r, s) <= SideCount(Code1(r, s) | Code2(r, s)) <= 4
    decreases SideCount(Code1(r, s) | Code2(r, s))
  {
    if NeedsPass(r, s) {
      PassShrinks(r, s);
      AtMostFourPasses(r, ClipPass(r, s));
    }
  }

  // ---------------------------------------------------------------------
  // Alignment
  // ---------------------------------------------------------------------

  /** The board's horizontal alignment code: left 1, center 2, right 3; anything else is left. */
  function HorizontalAlignCode(align: string): int
  {
    if align == "center" then 2 else if align == "right" then 3 else 1
  }

  /** The board's vertical alignment code: top 1, center 2, bottom 3; anything else is top. */
  function VerticalAlignCode(align: string): int
  {
    if align == "center" then 2 else if align == "bottom" then 3 else 1
  }

  /** The SVG `text-anchor` for a horizontal alignment; anything else starts at the position. */
  function TextAnchor(align: string): string
  {
    if align == "center" then "middle" else if align == "right" then "end" else "start"
  }

  /** The SVG `dominant-baseline` for a vertical alignment; anything else is centred. */
  function DominantBaseline(align: string): string
  {
    if align == "top" then "hanging" else if align == "bottom" then "baseline" else "middle"
  }

  /**
   * The codes are always valid (never the "unknown" 0) and tell the three
   * named alignments apart; board and SVG agree on every horizontal value
   * and on the three named vertical values.
   */
  lemma AlignmentCodes(h: string, v: string)
    ensures 1 <= HorizontalAlignCode(h) <= 3 && 1 <= VerticalAlignCode(v) <= 3
    ensures HorizontalAlignCode(h) == 2 <==> TextAnchor(h) == "middle"
    ensures HorizontalAlignCode(h) == 3 <==> TextAnchor(h) == "end"
    ensures HorizontalAlignCode(h) == 1 <==> TextAnchor(h) == "start"
    ensures v in {"top", "center", "bottom"} ==>
              (VerticalAlignCode(v) == 1 <==> DominantBaseline(v) == "hanging")
              && (VerticalAlignCode(v) == 2 <==> DominantBaseline(v) == "middle")
              && (VerticalAlignCode(v) == 3 <==> DominantBaseline(v) == "baseline")
  {
  }

  /** An unrecognised vertical alignment is top-aligned on the board but centred in SVG. */
  lemma UnknownVerticalAlignDiverges(v: string)
    requires v !in {"top", "center", "bottom"}
    ensures VerticalAlignCode(v) == VerticalAlignCode("top")
    ensures DominantBaseline(v) == DominantBaseline("center")
  {
  }

  /** A default callout is drawn left-aligned and vertically centred by both renderers. */
  lemma DefaultCalloutAlignment(position: Point)
    ensures var c := NewCallout(position);
            && HorizontalAlignCode(c.horizontalAlign) == 1 && TextAnchor(c.horizontalAlign) == "start"
            && VerticalAlignCode(c.verticalAlign) == 2 && DominantBaseline(c.verticalAlign) == "middle"
  {
  }
}
