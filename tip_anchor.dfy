/**
 * Orientation of a tip balloon and its automatic choice with hysteresis
 * (src/marks/tip.js, `maybeAnchor` and the anchor block of `postrender`).
 *
 * An orientation names where the anchor point sits on the balloon: with
 * "top-left" the point is the balloon's top-left corner, so the body extends
 * to the right of and below the point.
 */
module TipAnchor {
  import opened Wrappers

  datatype HSide = Left | Right
  datatype VSide = Top | Bottom

  datatype Anchor = TopLeft | TopRight | BottomLeft | BottomRight {
    function Horizontal(): HSide {
      if this == TopLeft || this == BottomLeft then Left else Right
    }
    function Vertical(): VSide {
      if this == TopLeft || this == TopRight then Top else Bottom
    }
    predicate IsLeft() { Horizontal() == Left }
    predicate IsTop() { Vertical() == Top }
    /** The orientation mirrored across the vertical axis through the anchor point. */
    function FlipH(): Anchor {
      match this
      case TopLeft => TopRight
      case TopRight => TopLeft
      case BottomLeft => BottomRight
      case BottomRight => BottomLeft
    }
    /** The orientation mirrored across the horizontal axis through the anchor point. */
    function FlipV(): Anchor {
      match this
      case TopLeft => BottomLeft
      case TopRight => BottomRight
      case BottomLeft => TopLeft
      case BottomRight => TopRight
    }
  }

  /** The keyword of an orientation, as the option and the template string spell it. */
  function Name(a: Anchor): string {
    match a
    case TopLeft => "top-left"
    case TopRight => "top-right"
    case BottomLeft => "bottom-left"
    case BottomRight => "bottom-right"
  }

  function HName(ax: HSide): string {
    if ax == Left then "left" else "right"
  }

  function VName(ay: VSide): string {
    if ay == Top then "top" else "bottom"
  }

  /** The orientation with vertical side `ay` and horizontal side `ax`. */
  function Compose(ay: VSide, ax: HSide): (a: Anchor)
    ensures a.Vertical() == ay && a.Horizontal() == ax
  {
    match (ay, ax)
    case (Top, Left) => TopLeft
    case (Top, Right) => TopRight
    case (Bottom, Left) => BottomLeft
    case (Bottom, Right) => BottomRight
  }

  /** The orientation that `${ay}-${ax}` spells. */
  lemma ComposeName(ay: VSide, ax: HSide)
    ensures Name(Compose(ay, ax)) == VName(ay) + "-" + HName(ax)
  {
  }

  /** The regular expression test `/-left$/.test(s)`. */
  predicate EndsWithLeft(s: string) {
    |s| >= 5 && s[|s| - 5..] == "-left"
  }

  /** The regular expression test `/^top-/.test(s)`. */
  predicate StartsWithTop(s: string) {
    |s| >= 4 && s[..4] == "top-"
  }

  /** The two regular expression tests, which see `undefined` as the string "undefined". */
  predicate PrevIsLeft(prev: Option<Anchor>) {
    EndsWithLeft(if prev.Some? then Name(prev.value) else "undefined")
  }

  predicate PrevIsTop(prev: Option<Anchor>) {
    StartsWithTop(if prev.Some? then Name(prev.value) else "undefined")
  }

  /** The regular expression tests on a keyword read exactly its two sides. */
  lemma NameTests(a: Anchor)
    ensures EndsWithLeft(Name(a)) <==> a.IsLeft()
    ensures StartsWithTop(Name(a)) <==> a.IsTop()
  {
    match a
    case TopLeft =>
    case TopRight =>
      assert Name(a)[|Name(a)| - 5..] == "right";
    case BottomLeft =>
      assert Name(a)[..4] == "bott";
    case BottomRight =>
      assert Name(a)[|Name(a)| - 5..] == "right";
      assert Name(a)[..4] == "bott";
  }

  /** An absent previous orientation passes neither test. */
  lemma PrevTests(prev: Option<Anchor>)
    ensures PrevIsLeft(prev) <==> prev.Some? && prev.value.IsLeft()
    ensures PrevIsTop(prev) <==> prev.Some? && prev.value.IsTop()
  {
    if prev.Some? {
      NameTests(prev.value);
    } else {
      assert "undefined"[4..] == "fined";
      assert "undefined"[..4] == "unde";
    }
  }

  /**
   * `maybeAnchor`: an absent option means automatic orientation, one of the
   * four keywords is that orientation, anything else is rejected.
   */
  function MaybeAnchor(value: Option<string>): (r: Result<Option<Anchor>>)
    ensures value.None? ==> r == Ok(None)
    ensures value.Some? ==> (r.Ok? <==> value.value in {"top-left", "top-right", "bottom-right", "bottom-left"})
    ensures r.Ok? && value.Some? ==> r.value.Some? && Name(r.value.value) == value.value
  {
    match value
    case None => Ok(None)
    case Some(s) =>
      if s == "top-left" then Ok(Some(TopLeft))
      else if s == "top-right" then Ok(Some(TopRight))
      else if s == "bottom-right" then Ok(Some(BottomRight))
      else if s == "bottom-left" then Ok(Some(BottomLeft))
      else Err("invalid anchor: " + s)
  }

  /** Every orientation's keyword is accepted and read back as that orientation. */
  lemma MaybeAnchorName(a: Anchor)
    ensures MaybeAnchor(Some(Name(a))) == Ok(Some(a))
  {
  }

  /** The padding `r` inside the balloon and the flag size `m`, in pixels. */
  const Padding: real := 8.0
  const FlagSize: real := 12.0

  /** The four fit tests; "left" means the body extends right of the point. */
  datatype Fits = Fits(left: bool, right: bool, top: bool, bottom: bool)

  /**
   * The fit tests of an anchor point (x, y) for a measured text box w by h on
   * a canvas width by height. Each one asks whether the balloon, growing that
   * way from the point, stays strictly inside the canvas (the downward test
   * keeps 7 more pixels).
   */
  function FitTests(x: real, y: real, w: real, h: real, width: real, height: real): Fits {
    Fits(
      x + w + Padding * 2.0 < width,
      x - w - Padding * 2.0 > 0.0,
      y + h + FlagSize + Padding * 2.0 + 7.0 < height,
      y - h - FlagSize - Padding * 2.0 > 0.0)
  }

  /**
   * The horizontal side: a side is left only when it no longer fits and the
   * opposite side does; otherwise the previous side is kept, an absent one
   * counting as right.
   */
  function HorizontalSide(prev: Option<Anchor>, f: Fits): (ax: HSide)
    ensures f.left && !f.right ==> ax == Left
    ensures !f.left && f.right ==> ax == Right
    ensures f.left == f.right ==> ax == (if prev.Some? then prev.value.Horizontal() else Right)
  {
    var wasLeft := prev.Some? && prev.value.IsLeft();
    if (if wasLeft then f.left || !f.right else f.left && !f.right) then Left else Right
  }

  /** The vertical side, by the same rule; an absent previous side counts as bottom. */
  function VerticalSide(prev: Option<Anchor>, f: Fits): (ay: VSide)
    ensures f.top && !f.bottom ==> ay == Top
    ensures !f.top && f.bottom ==> ay == Bottom
    ensures f.top == f.bottom ==> ay == (if prev.Some? then prev.value.Vertical() else Bottom)
  {
    var wasTop := prev.Some? && prev.value.IsTop();
    if (if wasTop then f.top || !f.bottom else f.top && !f.bottom) then Top else Bottom
  }

  /**
   * One resolution: the orientation used and the new `previousAnchor`. A fixed
   * orientation is used as it is and the memory is left alone; otherwise the
   * chosen orientation is stored.
   */
  function Resolve(fixed: Option<Anchor>, prev: Option<Anchor>, f: Fits): (res: (Anchor, Option<Anchor>))
    ensures fixed.Some? ==> res == (fixed.value, prev)
    ensures fixed.None? ==> res.1 == Some(res.0)
    // hysteresis: the balloon keeps a remembered side while that side fits
    ensures fixed.None? && prev.Some? && prev.value.IsLeft() && f.left ==> res.0.IsLeft()
    ensures fixed.None? && prev.Some? && !prev.value.IsLeft() && f.right ==> !res.0.IsLeft()
    ensures fixed.None? && prev.Some? && prev.value.IsTop() && f.top ==> res.0.IsTop()
    ensures fixed.None? && prev.Some? && !prev.value.IsTop() && f.bottom ==> !res.0.IsTop()
  {
    if fixed.Some? then (fixed.value, prev)
    else
      var a := Compose(VerticalSide(prev, f), HorizontalSide(prev, f));
      (a, Some(a))
  }

  /**
   * A side changes only when it no longer fits and the opposite side does:
   * with a remembered orientation, any flip is forced by the fit tests.
   */
  lemma FlipsOnlyWhenForced(prev: Anchor, f: Fits)
    ensures var a := Resolve(None, Some(prev), f).0;
      && (a.IsLeft() != prev.IsLeft() ==> (if prev.IsLeft() then !f.left && f.right else f.left && !f.right))
      && (a.IsTop() != prev.IsTop() ==> (if prev.IsTop() then !f.top && f.bottom else f.top && !f.bottom))
  {
  }

  /**
   * Resolving twice with unchanged measurements gives the same orientation:
   * what is stored is a fixed point of the rule.
   */
  lemma ResolveStable(fixed: Option<Anchor>, prev: Option<Anchor>, f: Fits)
    ensures var (a, p) := Resolve(fixed, prev, f); Resolve(fixed, p, f).0 == a
  {
  }

  /**
   * A point at (100, 100) on a 200 by 200 canvas with a 40 by 20 box and no
   * memory: all four tests pass, so the defaults right and bottom are kept.
   */
  lemma CenteredPointExample()
    ensures FitTests(100.0, 100.0, 40.0, 20.0, 200.0, 200.0) == Fits(true, true, true, true)
    ensures Resolve(None, None, FitTests(100.0, 100.0, 40.0, 20.0, 200.0, 200.0)) == (BottomRight, Some(BottomRight))
  {
  }
}
