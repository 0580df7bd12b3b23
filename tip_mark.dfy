/**
 * The tip mark itself (src/marks/tip.js, the `Tip` constructor and the
 * measurement pass `postrender`): its channel wiring and options, the
 * `previousAnchor` memory it keeps between items and renders, and the
 * placement of every balloon once its text box is measured.
 */
module TipMark {
  import opened Wrappers
  import opened TipAnchor
  import opened TipGeometry
  import opened TipLines

  /** A channel declaration handed to the base mark: its value (None: null or undefined), scale and optionality. */
  datatype ChannelSpec = ChannelSpec(value: Option<string>, scale: string, optional: bool)

  /** A declared channel that must be bound but is not. */
  predicate Unfilled(c: ChannelSpec) {
    !c.optional && c.value.None?
  }

  datatype Channels = Channels(x: ChannelSpec, y: ChannelSpec, x1: ChannelSpec, y1: ChannelSpec, x2: ChannelSpec, y2: ChannelSpec)

  /**
   * The constructor's channel declarations. A complete range (x1 and x2)
   * replaces the point channel x, whose midpoint is ignored; half a range
   * leaves its other end required and unbound. Likewise for y.
   */
  function WireChannels(x: Option<string>, y: Option<string>, x1: Option<string>, x2: Option<string>,
                        y1: Option<string>, y2: Option<string>): (c: Channels)
    ensures x1.Some? && x2.Some? ==> c.x.value == None
    ensures !(x1.Some? && x2.Some?) ==> c.x.value == x
    ensures y1.Some? && y2.Some? ==> c.y.value == None
    ensures !(y1.Some? && y2.Some?) ==> c.y.value == y
    ensures c.x1.value == x1 && c.x2.value == x2 && c.y1.value == y1 && c.y2.value == y2
    ensures c.x.scale == c.x1.scale == c.x2.scale == "x" && c.y.scale == c.y1.scale == c.y2.scale == "y"
    ensures !Unfilled(c.x) && !Unfilled(c.y)
    ensures Unfilled(c.x1) || Unfilled(c.x2) <==> x1.Some? != x2.Some?
    ensures Unfilled(c.y1) || Unfilled(c.y2) <==> y1.Some? != y2.Some?
  {
    Channels(
      ChannelSpec(if x1.Some? && x2.Some? then None else x, "x", true),
      ChannelSpec(if y1.Some? && y2.Some? then None else y, "y", true),
      ChannelSpec(x1, "x", x2.None?),
      ChannelSpec(y1, "y", y2.None?),
      ChannelSpec(x2, "x", x1.None?),
      ChannelSpec(y2, "y", y1.None?))
  }

  /** The options the tip reads itself (None: undefined). */
  datatype TipOptions = TipOptions(
    x: Option<string>, y: Option<string>,
    x1: Option<string>, x2: Option<string>, y1: Option<string>, y2: Option<string>,
    anchor: Option<string>,
    monospace: bool,
    fontFamily: Option<string>,
    lineHeight: Option<real>,
    lineWidth: Option<real>)

  /** The configuration a constructed tip holds. */
  datatype TipConfig = TipConfig(
    channels: Channels,
    anchor: Option<Anchor>,
    lineHeight: real,
    lineWidth: real,
    monospace: bool,
    fontFamily: Option<string>)

  const MonospaceFamily: string := "ui-monospace, monospace"

  /**
   * The first declared channel, in the order x, y, x1, y1, x2, y2, that is
   * required and has no value: the base mark rejects it at construction.
   */
  function MissingChannel(c: Channels): (n: Option<string>)
    ensures n.None? <==> !(Unfilled(c.x) || Unfilled(c.y) || Unfilled(c.x1) || Unfilled(c.y1) || Unfilled(c.x2) || Unfilled(c.y2))
    ensures n.Some? ==> n.value in {"x", "y", "x1", "y1", "x2", "y2"}
  {
    if Unfilled(c.x) then Some("x")
    else if Unfilled(c.y) then Some("y")
    else if Unfilled(c.x1) then Some("x1")
    else if Unfilled(c.y1) then Some("y1")
    else if Unfilled(c.x2) then Some("x2")
    else if Unfilled(c.y2) then Some("y2")
    else None
  }

  /**
   * What the constructor makes of its options. Half a range leaves a
   * required channel without a value, which the base mark rejects before the
   * anchor is read; an anchor keyword outside the four orientations is
   * rejected next.
   */
  function Configure(o: TipOptions): (r: Result<TipConfig>)
    ensures r.Err? <==>
      || o.x1.Some? != o.x2.Some?
      || o.y1.Some? != o.y2.Some?
      || (o.anchor.Some? && o.anchor.value !in {"top-left", "top-right", "bottom-right", "bottom-left"})
    ensures r.Ok? ==> r.value.channels == WireChannels(o.x, o.y, o.x1, o.x2, o.y1, o.y2)
    ensures r.Ok? ==> (r.value.anchor.None? <==> o.anchor.None?)
    ensures r.Ok? && o.anchor.Some? ==> Name(r.value.anchor.value) == o.anchor.value
    ensures r.Ok? ==> r.value.lineHeight == (if o.lineHeight.Some? then o.lineHeight.value else 1.0)
    ensures r.Ok? ==> r.value.lineWidth == (if o.lineWidth.Some? then o.lineWidth.value else 20.0)
    ensures r.Ok? ==> r.value.monospace == o.monospace
    ensures r.Ok? ==> r.value.fontFamily == (if o.fontFamily.None? && o.monospace then Some(MonospaceFamily) else o.fontFamily)
  {
    var channels := WireChannels(o.x, o.y, o.x1, o.x2, o.y1, o.y2);
    match MissingChannel(channels)
    case Some(name) => Err("missing channel value: " + name)
    case None =>
      match MaybeAnchor(o.anchor)
      case Err(e) => Err(e)
      case Ok(anchor) =>
        Ok(TipConfig(
          channels,
          anchor,
          if o.lineHeight.Some? then o.lineHeight.value else 1.0,
          if o.lineWidth.Some? then o.lineWidth.value else 20.0,
          o.monospace,
          if o.fontFamily.Some? then o.fontFamily else if o.monospace then Some(MonospaceFamily) else None))
  }

  /** With `x1` given and `x2` not, `x2` is required and unbound, so construction fails. */
  lemma HalfRangeRejected(o: TipOptions)
    requires o.x1.Some? && o.x2.None?
    ensures Configure(o).Err?
    ensures MissingChannel(WireChannels(o.x, o.y, o.x1, o.x2, o.y1, o.y2)) == Some(if o.y1.None? && o.y2.Some? then "y1" else "x2")
  {
  }

  /** The line style of a render: `widthof` is the monospace measure exactly when the tip is monospace. */
  function StyleOf(config: TipConfig, monospaceWidth: string -> real, defaultWidth: string -> real,
                   cut: (string, real, string -> real, real) -> int): LineStyle
  {
    LineStyle(config.lineWidth, config.lineHeight,
      Metrics(if config.monospace then monospaceWidth else defaultWidth, cut))
  }

  /**
   * The line environment of a render of a tip with configuration `config`:
   * lines are measured with the monospace width exactly when the tip is
   * monospace, cut to its `lineWidth` and stacked by its `lineHeight`.
   */
  function TipEnv(config: TipConfig, titles: Titles, monospaceWidth: string -> real, defaultWidth: string -> real,
                  cut: (string, real, string -> real, real) -> int, channels: map<string, Channel>,
                  scales: map<string, Scale>, format: Option<string> -> string): (env: Env)
    ensures Stacked(env) && env.lineHeight == config.lineHeight
    ensures env.channels == channels && env.scales == scales && env.format == format
    ensures config.monospace ==>
      env.render == Renderer(titles, LineStyle(config.lineWidth, config.lineHeight, Metrics(monospaceWidth, cut)))
    ensures !config.monospace ==>
      env.render == Renderer(titles, LineStyle(config.lineWidth, config.lineHeight, Metrics(defaultWidth, cut)))
  {
    RenderEnv(titles, StyleOf(config, monospaceWidth, defaultWidth, cut), channels, scales, format)
  }

  /** One measured item: its anchor point before the facet offset, its text box, and its number of lines. */
  datatype Item = Item(x: real, y: real, w: real, h: real, lineCount: nat)

  /** A datum of a render: its index, and its anchor point (the frame anchor when x or y is missing). */
  datatype Datum = Datum(index: nat, x: real, y: real)

  /**
   * The item the measurement pass sees for datum `d`: its point, the box
   * `measure` (standing for `getBBox`) gives its text, and the number of the
   * text's lines.
   */
  function MeasuredItem(d: Datum, lines: seq<TSpan>, measure: seq<TSpan> -> (real, real)): Item {
    Item(d.x, d.y, measure(lines).0, measure(lines).1, |lines|)
  }

  /** The items of a render in order, each with the lines its text loop emitted. */
  function Items(env: Env, data: seq<Datum>, keys: seq<string>, fx: Option<Facet>, fy: Option<Facet>,
                 measure: seq<TSpan> -> (real, real)): (items: seq<Item>)
    ensures |items| == |data|
    ensures forall k :: 0 <= k < |data| ==>
      items[k] == MeasuredItem(data[k], TextLines(env, data[k].index, keys, fx, fy), measure)
  {
    seq(|data|, k requires 0 <= k < |data| => MeasuredItem(data[k], TextLines(env, data[k].index, keys, fx, fy), measure))
  }

  /** The canvas of a measurement pass: the facet offset (ox, oy) and the whole drawing's size. */
  datatype Frame = Frame(ox: real, oy: real, width: real, height: real)

  /** What the measurement pass sets on an item: the path, the text's first-line offset and its translation. */
  datatype Placement = Placement(anchor: Anchor, path: seq<PathCommand>, lineOffset: real, transform: Point)

  function ItemFits(it: Item, frame: Frame): Fits {
    FitTests(it.x + frame.ox, it.y + frame.oy, it.w, it.h, frame.width, frame.height)
  }

  /**
   * The placement of a measured item in orientation `a`: its outline leaves
   * the anchor point, meets the body with the flag and comes back; its text
   * sits in the body, `Padding` from every edge; its first (top-) or last
   * (bottom-) baseline lands where `getLineOffset` promises.
   */
  function Place(a: Anchor, it: Item, lineHeight: real): (p: Placement)
    ensures p.anchor == a
    ensures var t := Trace(p.path, Pen(Point(0.0, 0.0), Point(0.0, 0.0)));
      |t| == 6 && t[1] == Point(SideX(a, FlagSize), NearEdge(a, FlagSize)) && t[5] == Point(0.0, 0.0)
    ensures var b := Body(a, FlagSize, Padding, it.w, it.h);
      TextBox(a, p.transform, it.w, it.h) == Rect(b.x0 + Padding, b.x1 - Padding, b.y0 + Padding, b.y1 - Padding)
    ensures a.IsTop() ==> Baseline(p.lineOffset, lineHeight, 0) == 0.94
    ensures !a.IsTop() && it.lineCount > 0 ==> Baseline(p.lineOffset, lineHeight, it.lineCount - 1) == -0.29
  {
    OutlineCorners(a, FlagSize, Padding, it.w, it.h);
    TextInsetInBody(a, FlagSize, Padding, it.w, it.h);
    Placement(a, GetPath(a, FlagSize, Padding, it.w, it.h), LineOffset(a, it.lineCount, lineHeight),
      TextTransform(a, FlagSize, Padding, it.w))
  }

  /**
   * The placements of a pass over `items` in order, each resolved with the
   * memory the previous item left, and the memory left at the end.
   */
  function Placements(fixed: Option<Anchor>, prev: Option<Anchor>, items: seq<Item>, frame: Frame,
                      lineHeight: real): (res: (seq<Placement>, Option<Anchor>))
    ensures |res.0| == |items|
    decreases |items|
  {
    if items == [] then ([], prev)
    else Advance(fixed, Placements(fixed, prev, items[..|items| - 1], frame, lineHeight), items[|items| - 1], frame, lineHeight)
  }

  /** One step of the pass: `it` is resolved with the memory so far, placed, and its memory kept. */
  function Advance(fixed: Option<Anchor>, before: (seq<Placement>, Option<Anchor>), it: Item, frame: Frame,
                   lineHeight: real): (after: (seq<Placement>, Option<Anchor>))
    ensures |after.0| == |before.0| + 1
  {
    var r := Resolve(fixed, before.1, ItemFits(it, frame));
    (before.0 + [Place(r.0, it, lineHeight)], r.1)
  }

  /** A step extends the placements made so far without looking at them. */
  lemma AdvanceAppend(fixed: Option<Anchor>, done: seq<Placement>, before: (seq<Placement>, Option<Anchor>), it: Item,
                      frame: Frame, lineHeight: real)
    ensures Advance(fixed, (done + before.0, before.1), it, frame, lineHeight) ==
      (done + Advance(fixed, before, it, frame, lineHeight).0, Advance(fixed, before, it, frame, lineHeight).1)
  {
    var r := Resolve(fixed, before.1, ItemFits(it, frame));
    assert (done + before.0) + [Place(r.0, it, lineHeight)] == done + (before.0 + [Place(r.0, it, lineHeight)]);
  }

  /**
   * A pass over `a + b` is a pass over `a` followed by a pass over `b` that
   * starts from the memory `a` left. Within one frame, items share one
   * memory this way; across renders and facet panels it is shared through
   * `Tip.previousAnchor`, which each `Tip.Postrender` starts from and leaves.
   */
  lemma {:induction false} PlacementsCompose(fixed: Option<Anchor>, prev: Option<Anchor>, a: seq<Item>, b: seq<Item>,
                                             frame: Frame, lineHeight: real)
    ensures var first := Placements(fixed, prev, a, frame, lineHeight);
      var second := Placements(fixed, first.1, b, frame, lineHeight);
      Placements(fixed, prev, a + b, frame, lineHeight) == (first.0 + second.0, second.1)
    decreases |b|
  {
    if b == [] {
      assert a + b == a;
      var first := Placements(fixed, prev, a, frame, lineHeight);
      assert Placements(fixed, first.1, b, frame, lineHeight) == ([], first.1);
      assert first.0 + [] == first.0;
    } else {
      var b', last := b[..|b| - 1], b[|b| - 1];
      assert (a + b)[..|a + b| - 1] == a + b';
      assert (a + b)[|a + b| - 1] == last;
      PlacementsCompose(fixed, prev, a, b', frame, lineHeight);
      var first := Placements(fixed, prev, a, frame, lineHeight);
      var mid := Placements(fixed, first.1, b', frame, lineHeight);
      assert Placements(fixed, first.1, b, frame, lineHeight) == Advance(fixed, mid, last, frame, lineHeight);
      assert Placements(fixed, prev, a + b, frame, lineHeight) == Advance(fixed, (first.0 + mid.0, mid.1), last, frame, lineHeight);
      AdvanceAppend(fixed, first.0, mid, last, frame, lineHeight);
    }
  }

  /** The item after `before` is resolved against the memory that `before` left. */
  lemma PlacementAt(fixed: Option<Anchor>, prev: Option<Anchor>, before: seq<Item>, it: Item, after: seq<Item>,
                    frame: Frame, lineHeight: real)
    ensures Placements(fixed, prev, before + [it] + after, frame, lineHeight).0[|before|] ==
      Place(Resolve(fixed, Placements(fixed, prev, before, frame, lineHeight).1, ItemFits(it, frame)).0, it, lineHeight)
  {
    PlacementsCompose(fixed, prev, before + [it], after, frame, lineHeight);
    PlacementsCompose(fixed, prev, before, [it], frame, lineHeight);
    assert [it][..0] == [];
  }

  /** The k-th placement of a pass places the k-th item. */
  lemma PlacedItem(fixed: Option<Anchor>, prev: Option<Anchor>, items: seq<Item>, frame: Frame, lineHeight: real, k: nat)
    requires k < |items|
    ensures var ps := Placements(fixed, prev, items, frame, lineHeight).0;
      ps[k] == Place(ps[k].anchor, items[k], lineHeight)
  {
    assert items == items[..k] + [items[k]] + items[k + 1..];
    PlacementAt(fixed, prev, items[..k], items[k], items[k + 1..], frame, lineHeight);
  }

  /**
   * In a render, the k-th balloon's text is placed so that its first line
   * (top-) or its last emitted line (bottom-) sits on the promised baseline,
   * and the text lies in the body, `Padding` from every edge.
   */
  lemma TextBaselines(fixed: Option<Anchor>, prev: Option<Anchor>, env: Env, data: seq<Datum>, keys: seq<string>,
                      fx: Option<Facet>, fy: Option<Facet>, measure: seq<TSpan> -> (real, real), frame: Frame,
                      lineHeight: real, k: nat)
    requires k < |data|
    ensures var items := Items(env, data, keys, fx, fy, measure);
      var p := Placements(fixed, prev, items, frame, lineHeight).0[k];
      var n := |TextLines(env, data[k].index, keys, fx, fy)|;
      var b := Body(p.anchor, FlagSize, Padding, items[k].w, items[k].h);
      && (p.anchor.IsTop() ==> Baseline(p.lineOffset, lineHeight, 0) == 0.94)
      && (!p.anchor.IsTop() && n > 0 ==> Baseline(p.lineOffset, lineHeight, n - 1) == -0.29)
      && TextBox(p.anchor, p.transform, items[k].w, items[k].h) == Rect(b.x0 + Padding, b.x1 - Padding, b.y0 + Padding, b.y1 - Padding)
  {
    var items := Items(env, data, keys, fx, fy, measure);
    PlacedItem(fixed, prev, items, frame, lineHeight, k);
    assert items[k].lineCount == |TextLines(env, data[k].index, keys, fx, fy)|;
  }

  /** With a fixed anchor every item uses it and the memory is neither read nor written. */
  lemma {:induction false} FixedAnchorPlacements(a: Anchor, prev: Option<Anchor>, items: seq<Item>,
                                                 frame: Frame, lineHeight: real)
    ensures var (ps, p) := Placements(Some(a), prev, items, frame, lineHeight);
      p == prev && forall k :: 0 <= k < |ps| ==> ps[k].anchor == a
    decreases |items|
  {
    if items != [] {
      FixedAnchorPlacements(a, prev, items[..|items| - 1], frame, lineHeight);
    }
  }

  /** With automatic orientation the memory ends as the last item's orientation (last write wins). */
  lemma AutoMemoryIsLast(prev: Option<Anchor>, items: seq<Item>, frame: Frame, lineHeight: real)
    requires items != []
    ensures var (ps, p) := Placements(None, prev, items, frame, lineHeight);
      p == Some(ps[|items| - 1].anchor)
  {
  }

  /** Re-rendering an unchanged single item keeps its orientation. */
  lemma RerenderStable(fixed: Option<Anchor>, prev: Option<Anchor>, it: Item, frame: Frame, lineHeight: real)
    ensures var (ps, p) := Placements(fixed, prev, [it], frame, lineHeight);
      Placements(fixed, p, [it], frame, lineHeight).0 == ps
  {
    var first := Placements(fixed, prev, [it], frame, lineHeight);
    assert [it][..0] == [];
    ResolveStable(fixed, prev, ItemFits(it, frame));
  }

  /**
   * Each fit test asks exactly whether the outline of a balloon growing that
   * way from the point stays inside the canvas (7 pixels more below).
   */
  lemma FitTestsMatchOutline(a: Anchor, x: real, y: real, w: real, h: real, width: real, height: real)
    ensures var f := FitTests(x, y, w, h, width, height); var b := OutlineBox(a, FlagSize, Padding, w, h);
      && (a.IsLeft() ==> (f.left <==> x + b.x1 < width))
      && (!a.IsLeft() ==> (f.right <==> 0.0 < x + b.x0))
      && (a.IsTop() ==> (f.top <==> y + b.y1 + 7.0 < height))
      && (!a.IsTop() ==> (f.bottom <==> 0.0 < y + b.y0))
  {
  }

  /** A tip mark: its configuration and the orientation memory shared by all its items and renders. */
  class Tip {
    const config: TipConfig
    var previousAnchor: Option<Anchor>

    constructor (config: TipConfig)
      ensures this.config == config && previousAnchor == None
    {
      this.config := config;
      previousAnchor := None;
    }

    /** The anchor block of `postrender` for one item. */
    method ResolveAnchor(x: real, y: real, w: real, h: real, width: real, height: real) returns (a: Anchor)
      modifies this
      ensures (a, previousAnchor) == Resolve(config.anchor, old(previousAnchor), FitTests(x, y, w, h, width, height))
    {
      if config.anchor.Some? {
        a := config.anchor.value;
        return;
      }
      var prev := previousAnchor;
      var f := FitTests(x, y, w, h, width, height);
      var ax := if (if PrevIsLeft(prev) then f.left || !f.right else f.left && !f.right) then Left else Right;
      var ay := if (if PrevIsTop(prev) then f.top || !f.bottom else f.top && !f.bottom) then Top else Bottom;
      a := Compose(ay, ax);
      previousAnchor := Some(a);
      PrevTests(prev);
    }

    /** `postrender`: every item in order is resolved, then given its path and text placement. */
    method Postrender(items: seq<Item>, frame: Frame) returns (ps: seq<Placement>)
      modifies this
      ensures (ps, previousAnchor) == Placements(config.anchor, old(previousAnchor), items, frame, config.lineHeight)
    {
      ps := [];
      var n := 0;
      while n < |items|
        invariant 0 <= n <= |items|
        invariant (ps, previousAnchor) == Placements(config.anchor, old(previousAnchor), items[..n], frame, config.lineHeight)
      {
        var it := items[n];
        ghost var before := (ps, previousAnchor);
        var a := ResolveAnchor(it.x + frame.ox, it.y + frame.oy, it.w, it.h, frame.width, frame.height);
        ps := ps + [Place(a, it, config.lineHeight)];
        assert (ps, previousAnchor) == Advance(config.anchor, before, it, frame, config.lineHeight);
        assert items[..n + 1][..n] == items[..n] && items[..n + 1][n] == it;
        n := n + 1;
      }
      assert items[..|items|] == items;
    }

    /**
     * `render` followed by `postrender`: the text of every datum, built with
     * the line environment of this tip's configuration, then the placement of
     * the measured items, whose line counts are those of their texts.
     */
    method Render(titles: Titles, monospaceWidth: string -> real, defaultWidth: string -> real,
                  cut: (string, real, string -> real, real) -> int, channels: map<string, Channel>,
                  scales: map<string, Scale>, format: Option<string> -> string,
                  data: seq<Datum>, keys: seq<string>, fx: Option<Facet>, fy: Option<Facet>,
                  measure: seq<TSpan> -> (real, real), frame: Frame)
      returns (texts: seq<seq<TSpan>>, ps: seq<Placement>)
      modifies this
      ensures var env := TipEnv(config, titles, monospaceWidth, defaultWidth, cut, channels, scales, format);
        && |texts| == |data|
        && (forall k :: 0 <= k < |data| ==> texts[k] == TextLines(env, data[k].index, keys, fx, fy))
        && (ps, previousAnchor) ==
             Placements(config.anchor, old(previousAnchor), Items(env, data, keys, fx, fy, measure), frame, config.lineHeight)
    {
      var env := TipEnv(config, titles, monospaceWidth, defaultWidth, cut, channels, scales, format);
      texts := [];
      var items: seq<Item> := [];
      var n := 0;
      while n < |data|
        invariant 0 <= n <= |data| && |texts| == n && |items| == n
        invariant forall k :: 0 <= k < n ==> texts[k] == TextLines(env, data[k].index, keys, fx, fy)
        invariant forall k :: 0 <= k < n ==> items[k] == MeasuredItem(data[k], texts[k], measure)
        invariant previousAnchor == old(previousAnchor)
      {
        var lines := RenderText(env, data[n].index, keys, fx, fy);
        texts := texts + [lines];
        items := items + [MeasuredItem(data[n], lines, measure)];
        n := n + 1;
      }
      assert items == Items(env, data, keys, fx, fy, measure);
      ps := Postrender(items, frame);
    }
  }

  /** `new Tip(data, options)`: throws for half a range or a bad anchor, otherwise a tip with no memory yet. */
  method NewTip(o: TipOptions) returns (r: Result<Tip>)
    ensures r.Err? <==> Configure(o).Err?
    ensures r.Ok? ==> fresh(r.value) && r.value.config == Configure(o).value && r.value.previousAnchor == None
  {
    match Configure(o)
    case Err(e) => r := Err(e);
    case Ok(config) =>
      var t := new Tip(config);
      r := Ok(t);
  }
}
