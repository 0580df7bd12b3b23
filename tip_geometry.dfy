/**
 * The balloon outline, the text placement and the first-line offset of a tip
 * (src/marks/tip.js, `getPath`, `getTextTransform` and `getLineOffset`).
 * Coordinates are relative to the anchor point; y grows downward.
 */
module TipGeometry {
  import opened TipAnchor

  datatype Point = Point(x: real, y: real)

  /** The SVG path commands `getPath` uses; all but `M` are relative. */
  datatype PathCommand =
    | MoveTo(x: real, y: real)
    | LineBy(dx: real, dy: real)
    | HorizontalBy(dx: real)
    | VerticalBy(dy: real)
    | ClosePath

  /** `v` on the side of the anchor point that a orientation's body extends to. */
  function SideX(a: Anchor, v: real): real {
    if a.IsLeft() then v else -v
  }

  function SideY(a: Anchor, v: real): real {
    if a.IsTop() then v else -v
  }

  /**
   * `getPath(anchor, m, r, width, height)`: from the anchor point, the flag
   * diagonal of size m, then the body of (width + 2r) by (height + 2r), closed
   * back to the point.
   */
  function GetPath(a: Anchor, m: real, r: real, width: real, height: real): (p: seq<PathCommand>)
    ensures |p| == 6 && p[0] == MoveTo(0.0, 0.0) && p[5] == ClosePath
    ensures p[1] == LineBy(SideX(a, m), SideY(a, m))
  {
    var w := width + r * 2.0;
    var h := height + r * 2.0;
    match a
    case TopLeft =>
      [MoveTo(0.0, 0.0), LineBy(m, m), HorizontalBy(w - m), VerticalBy(h), HorizontalBy(-w), ClosePath]
    case TopRight =>
      [MoveTo(0.0, 0.0), LineBy(-m, m), HorizontalBy(m - w), VerticalBy(h), HorizontalBy(w), ClosePath]
    case BottomLeft =>
      [MoveTo(0.0, 0.0), LineBy(m, -m), HorizontalBy(w - m), VerticalBy(-h), HorizontalBy(-w), ClosePath]
    case BottomRight =>
      [MoveTo(0.0, 0.0), LineBy(-m, -m), HorizontalBy(m - w), VerticalBy(-h), HorizontalBy(w), ClosePath]
  }

  /** The pen: where it is and where the current subpath started. */
  datatype Pen = Pen(at: Point, start: Point)

  function Step(c: PathCommand, pen: Pen): Pen {
    match c
    case MoveTo(x, y) => Pen(Point(x, y), Point(x, y))
    case LineBy(dx, dy) => pen.(at := Point(pen.at.x + dx, pen.at.y + dy))
    case HorizontalBy(dx) => pen.(at := Point(pen.at.x + dx, pen.at.y))
    case VerticalBy(dy) => pen.(at := Point(pen.at.x, pen.at.y + dy))
    case ClosePath => pen.(at := pen.start)
  }

  /** The pen position after each command of `p`, starting from `pen`. */
  function Trace(p: seq<PathCommand>, pen: Pen): (t: seq<Point>)
    ensures |t| == |p|
    decreases |p|
  {
    if p == [] then [] else
      var next := Step(p[0], pen);
      [next.at] + Trace(p[1..], next)
  }

  /** The vertices of the outline of a balloon in orientation `a`, in drawing order. */
  function Outline(a: Anchor, m: real, r: real, width: real, height: real): (t: seq<Point>)
    ensures |t| == 6
  {
    Trace(GetPath(a, m, r, width, height), Pen(Point(0.0, 0.0), Point(0.0, 0.0)))
  }

  /** An axis-aligned rectangle [x0, x1] by [y0, y1]. */
  datatype Rect = Rect(x0: real, x1: real, y0: real, y1: real) {
    predicate Contains(q: Point) {
      x0 <= q.x <= x1 && y0 <= q.y <= y1
    }
  }

  /** The rectangular body of the balloon, without the flag. */
  function Body(a: Anchor, m: real, r: real, width: real, height: real): Rect {
    var w := width + 2.0 * r;
    var h := height + 2.0 * r;
    Rect(
      if a.IsLeft() then 0.0 else -w,
      if a.IsLeft() then w else 0.0,
      if a.IsTop() then m else -(m + h),
      if a.IsTop() then m + h else -m)
  }

  /** The y of the body edge that the flag meets. */
  function NearEdge(a: Anchor, m: real): real {
    SideY(a, m)
  }

  /**
   * The traced outline: the flag ends on the near edge of the body, the next
   * three vertices are corners of the body, and the pen is back at x = 0
   * before `z`, so the closing edge is vertical and ends at the anchor point.
   */
  lemma {:induction false} OutlineCorners(a: Anchor, m: real, r: real, width: real, height: real)
    ensures var t := Outline(a, m, r, width, height); var b := Body(a, m, r, width, height);
      && t[0] == Point(0.0, 0.0)
      && t[1] == Point(SideX(a, m), NearEdge(a, m))
      && t[2] == Point(if a.IsLeft() then b.x1 else b.x0, NearEdge(a, m))
      && t[3] == Point(if a.IsLeft() then b.x1 else b.x0, if a.IsTop() then b.y1 else b.y0)
      && t[4] == Point(0.0, if a.IsTop() then b.y1 else b.y0)
      && t[5] == Point(0.0, 0.0)
  {
    var p := GetPath(a, m, r, width, height);
    var o := Point(0.0, 0.0);
    var t := Outline(a, m, r, width, height);
    var pens := [Pen(o, o), Step(p[0], Pen(o, o))];
    var q1 := Step(p[1], Step(p[0], Pen(o, o)));
    var q2 := Step(p[2], q1);
    var q3 := Step(p[3], q2);
    var q4 := Step(p[4], q3);
    var q5 := Step(p[5], q4);
    assert t == [o] + Trace(p[1..], Pen(o, o));
    assert Trace(p[1..], Pen(o, o)) == [q1.at] + Trace(p[2..], q1) by { assert p[1..][1..] == p[2..]; }
    assert Trace(p[2..], q1) == [q2.at] + Trace(p[3..], q2) by { assert p[2..][1..] == p[3..]; }
    assert Trace(p[3..], q2) == [q3.at] + Trace(p[4..], q3) by { assert p[3..][1..] == p[4..]; }
    assert Trace(p[4..], q3) == [q4.at] + Trace(p[5..], q4) by { assert p[4..][1..] == p[5..]; }
    assert Trace(p[5..], q4) == [q5.at] by { assert p[5..][1..] == []; }
  }

  /**
   * The outline's bounding box: the body's width horizontally, and from the
   * anchor point to the body's far edge vertically.
   */
  function OutlineBox(a: Anchor, m: real, r: real, width: real, height: real): (b: Rect)
    ensures b.x1 - b.x0 == width + 2.0 * r
    ensures b.y1 - b.y0 == m + height + 2.0 * r
  {
    var body := Body(a, m, r, width, height);
    Rect(body.x0, body.x1, if a.IsTop() then 0.0 else body.y0, if a.IsTop() then body.y1 else 0.0)
  }

  /**
   * Whenever the flag is no wider than the body, the outline spans exactly
   * width + 2r horizontally and m + height + 2r vertically: every vertex is in
   * the box and the box's edges are reached.
   */
  lemma OutlineSpan(a: Anchor, m: real, r: real, width: real, height: real)
    requires 0.0 <= m <= width + 2.0 * r && 0.0 <= height + 2.0 * r
    ensures var t := Outline(a, m, r, width, height); var b := OutlineBox(a, m, r, width, height);
      && (forall i :: 0 <= i < |t| ==> b.Contains(t[i]))
      && {t[0].x, t[2].x} == {b.x0, b.x1}
      && {t[0].y, t[3].y} == {b.y0, b.y1}
  {
    OutlineCorners(a, m, r, width, height);
  }

  function MirrorXCommand(c: PathCommand): PathCommand {
    match c
    case MoveTo(x, y) => MoveTo(-x, y)
    case LineBy(dx, dy) => LineBy(-dx, dy)
    case HorizontalBy(dx) => HorizontalBy(-dx)
    case VerticalBy(dy) => VerticalBy(dy)
    case ClosePath => ClosePath
  }

  function MirrorYCommand(c: PathCommand): PathCommand {
    match c
    case MoveTo(x, y) => MoveTo(x, -y)
    case LineBy(dx, dy) => LineBy(dx, -dy)
    case HorizontalBy(dx) => HorizontalBy(dx)
    case VerticalBy(dy) => VerticalBy(-dy)
    case ClosePath => ClosePath
  }

  /** A path reflected across the vertical axis through its origin. */
  function MirrorX(p: seq<PathCommand>): (q: seq<PathCommand>)
    ensures |q| == |p| && forall i :: 0 <= i < |p| ==> q[i] == MirrorXCommand(p[i])
  {
    seq(|p|, i requires 0 <= i < |p| => MirrorXCommand(p[i]))
  }

  /** A path reflected across the horizontal axis through its origin. */
  function MirrorY(p: seq<PathCommand>): (q: seq<PathCommand>)
    ensures |q| == |p| && forall i :: 0 <= i < |p| ==> q[i] == MirrorYCommand(p[i])
  {
    seq(|p|, i requires 0 <= i < |p| => MirrorYCommand(p[i]))
  }

  /** Right variants mirror left ones in x. */
  lemma PathMirrorsX(a: Anchor, m: real, r: real, width: real, height: real)
    ensures GetPath(a.FlipH(), m, r, width, height) == MirrorX(GetPath(a, m, r, width, height))
  {
    var p := GetPath(a, m, r, width, height);
    var q := GetPath(a.FlipH(), m, r, width, height);
    forall i | 0 <= i < 6
      ensures q[i] == MirrorX(p)[i]
    {
    }
  }

  /** Bottom variants mirror top ones in y. */
  lemma PathMirrorsY(a: Anchor, m: real, r: real, width: real, height: real)
    ensures GetPath(a.FlipV(), m, r, width, height) == MirrorY(GetPath(a, m, r, width, height))
  {
    var p := GetPath(a, m, r, width, height);
    var q := GetPath(a.FlipV(), m, r, width, height);
    forall i | 0 <= i < 6
      ensures q[i] == MirrorY(p)[i]
    {
    }
  }

  /**
   * `getTextTransform(anchor, m, r, width)`: the text block's origin, inset by
   * r from the body's left and right edges and from the edge the flag meets
   * (the block hangs below it for top-, sits above it for bottom-). Height is
   * not an argument.
   */
  function TextTransform(a: Anchor, m: real, r: real, width: real): (t: Point)
    ensures forall height {:trigger Body(a, m, r, width, height)} ::
      t.x == Body(a, m, r, width, height).x0 + r && t.x + width == Body(a, m, r, width, height).x1 - r
    ensures t.y == NearEdge(a, m) + SideY(a, r)
  {
    var x := if a.IsLeft() then r else -width - r;
    var y := if a.IsTop() then m + r else -m - r;
    Point(x, y)
  }

  /**
   * The box a width by height text block occupies from its origin `t`: it
   * hangs below the origin for top- orientations and sits above it for
   * bottom- ones, whose lines are offset upward.
   */
  function TextBox(a: Anchor, t: Point, width: real, height: real): Rect {
    Rect(t.x, t.x + width, if a.IsTop() then t.y else t.y - height, if a.IsTop() then t.y + height else t.y)
  }

  /** The text block sits in the body, r from each of its four edges. */
  lemma TextInsetInBody(a: Anchor, m: real, r: real, width: real, height: real)
    ensures var b := Body(a, m, r, width, height);
      TextBox(a, TextTransform(a, m, r, width), width, height) == Rect(b.x0 + r, b.x1 - r, b.y0 + r, b.y1 - r)
  {
  }

  /**
   * The baseline, in em, of the k-th line (from 0) when the text starts at
   * `offset` and every line moves down by one `lineHeight`.
   */
  function Baseline(offset: real, lineHeight: real, k: nat): real {
    offset + (k + 1) as real * lineHeight
  }

  /**
   * `getLineOffset(anchor, length, lineHeight)`: for top- orientations the
   * first baseline lands at 0.94em whatever the line height; for bottom- the
   * last of `length` baselines lands at -0.29em whatever the count.
   */
  function LineOffset(a: Anchor, length: nat, lineHeight: real): (dy: real)
    ensures a.IsTop() ==> Baseline(dy, lineHeight, 0) == 0.94
    ensures !a.IsTop() && length > 0 ==> Baseline(dy, lineHeight, length - 1) == -0.29
    ensures !a.IsTop() && length == 0 ==> dy == -0.29
  {
    if a.IsTop() then 0.94 - lineHeight else -0.29 - length as real * lineHeight
  }

  /** Neither the first-line offset nor the text's vertical place depends on the horizontal side. */
  lemma VerticalIndependentOfSide(a: Anchor, m: real, r: real, width: real, length: nat, lineHeight: real)
    ensures LineOffset(a.FlipH(), length, lineHeight) == LineOffset(a, length, lineHeight)
    ensures TextTransform(a.FlipH(), m, r, width).y == TextTransform(a, m, r, width).y
  {
  }
}
