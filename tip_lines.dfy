/**
 * The text of a tip: one line per displayable channel and per facet, each
 * with a bold name and a plain value, truncated to a width budget
 * (src/marks/tip.js, `renderLine`, `getSource` and the line loop of `render`).
 */
module TipLines {
  import opened Wrappers
  import opened JsText

  const Ellipsis: string := "\U{2026}"
  const ZeroWidthSpace: string := "\U{200B}"

  /**
   * Text measurement: `widthof` (`monospaceWidth` or `defaultWidth`) and
   * `cut(text, width, widthof, inset)`, which gives the index at which to cut
   * `text` so that it and an inset of width `inset` fit in `width`, or a
   * negative number when no cut is needed.
   */
  datatype Metrics = Metrics(widthof: string -> real, cut: (string, real, string -> real, real) -> int)

  /** The options a line depends on: `lineWidth`, `lineHeight` (in em) and the metrics. */
  datatype LineStyle = LineStyle(lineWidth: real, lineHeight: real, metrics: Metrics)

  /** One emitted line: a tspan at x = 0 moved down by dy em, a bold name, an optional text node and title. */
  datatype TSpan = TSpan(x: real, dy: real, name: string, text: Option<string>, title: Option<string>)

  /** The width budget of a line. */
  function Budget(style: LineStyle): real {
    style.lineWidth * 100.0
  }

  /** Where the name is cut under the whole budget (negative: it fits). */
  function NameCut(style: LineStyle, name: string): int {
    var mt := style.metrics;
    mt.cut(name, Budget(style), mt.widthof, mt.widthof(Ellipsis))
  }

  /** The value as shown after a name: a separating space, then a zero-width space for double-click selection. */
  function Wrap(value: string): (v: string)
    ensures v == [' '] + value + ['\U{200B}']
  {
    " " + value + ZeroWidthSpace
  }

  /** Where the wrapped value is cut under the budget left after the name (negative: it fits). */
  function ValueCut(style: LineStyle, name: string, value: string): int {
    var mt := style.metrics;
    mt.cut(Wrap(value), Budget(style) - mt.widthof(name), mt.widthof, mt.widthof(Ellipsis))
  }

  /** `s.slice(0, j).trimEnd() + ellipsis`. */
  function Shorten(s: string, j: nat): (r: string)
    ensures r != [] && r[|r| - 1] == '\U{2026}' && !IsSpace(r[|r| - 1])
    ensures r[..|r| - 1] <= s
  {
    TrimEnd(Prefix(s, j)) + Ellipsis
  }

  /** A text node or title element is added only for a non-empty string. */
  function NonEmpty(s: string): (o: Option<string>)
    ensures o.Some? <==> s != []
    ensures o.Some? ==> o.value == s
  {
    if s == "" then None else Some(s)
  }

  /**
   * `renderLine` as the source writes it: the title is taken from `value`
   * after `value` has been emptied or truncated.
   */
  function RenderLineAsWritten(style: LineStyle, name: string, value: string): (t: TSpan)
    ensures t.x == 0.0 && t.dy == style.lineHeight
    // a truncated name drops the value and, as written, leaves no title
    ensures NameCut(style, name) >= 0 ==>
      t.name == Shorten(name, NameCut(style, name)) && t.text == None && t.title == None
    // a fitting name is kept verbatim and is always followed by the value text
    ensures NameCut(style, name) < 0 ==> t.name == name && t.text.Some?
    ensures NameCut(style, name) < 0 && ValueCut(style, name, value) < 0 ==>
      t.text == Some(Wrap(value)) && t.title == None
    // as written, the title of a truncated value is the truncated text itself
    ensures NameCut(style, name) < 0 && ValueCut(style, name, value) >= 0 ==>
      var v := Shorten(Wrap(value), ValueCut(style, name, value));
      t.text == Some(v) && t.title == Some(Trim(v)) && t.title.value[|t.title.value| - 1] == '\U{2026}'
  {
    var j := NameCut(style, name);
    if j >= 0 then
      var value' := "";
      var title := Trim(value');
      TSpan(0.0, style.lineHeight, Shorten(name, j), NonEmpty(value'), NonEmpty(title))
    else
      var v := Wrap(value);
      var k := ValueCut(style, name, value);
      if k >= 0 then
        var value' := Shorten(v, k);
        var title := Trim(value');
        TSpan(0.0, style.lineHeight, name, NonEmpty(value'), NonEmpty(title))
      else
        TSpan(0.0, style.lineHeight, name, NonEmpty(v), None)
  }

  /** Trimming the start of a string is not disturbed by a non-space character appended to it. */
  lemma {:induction false} TrimStartAppend(s: string, c: char)
    requires !IsSpace(c)
    ensures TrimStart(s + [c]) == TrimStart(s) + [c]
    decreases |s|
  {
    if |s| > 0 && IsSpace(s[0]) {
      assert (s + [c])[1..] == s[1..] + [c];
      TrimStartAppend(s[1..], c);
    }
  }

  /** Trimming a wrapped value removes the separating space and the value's leading white space only. */
  lemma TrimWrapped(value: string)
    ensures Trim(Wrap(value)) == TrimStart(value) + ZeroWidthSpace
  {
    var v := Wrap(value);
    assert !IsSpace('\U{200B}') && IsSpace(' ');
    assert v[|v| - 1] == '\U{200B}' && v[0] == ' ';
    assert TrimEnd(v) == v;
    assert v[1..] == value + ZeroWidthSpace;
    assert TrimStart(v) == TrimStart(v[1..]);
    TrimStartAppend(value, '\U{200B}');
  }

  /**
   * `renderLine` with the title taken from the value before it is changed, so
   * that whatever a cut hides stays readable in the title. Name and text are
   * exactly those of the source.
   */
  function RenderLine(style: LineStyle, name: string, value: string): (t: TSpan)
    ensures t.x == 0.0 && t.dy == style.lineHeight
    ensures t.name == RenderLineAsWritten(style, name, value).name
    ensures t.text == RenderLineAsWritten(style, name, value).text
    // nothing truncated: no title
    ensures NameCut(style, name) < 0 && ValueCut(style, name, value) < 0 ==> t.title == None
    // a truncated name: the dropped value is the title
    ensures NameCut(style, name) >= 0 ==> t.title == NonEmpty(Trim(value))
    // a truncated value: the title is the whole value, less leading white space
    ensures NameCut(style, name) < 0 && ValueCut(style, name, value) >= 0 ==>
      t.title == Some(TrimStart(value) + ZeroWidthSpace)
  {
    var j := NameCut(style, name);
    if j >= 0 then
      var title := Trim(value);
      TSpan(0.0, style.lineHeight, Shorten(name, j), None, NonEmpty(title))
    else
      var v := Wrap(value);
      var k := ValueCut(style, name, value);
      if k >= 0 then
        var title := Trim(v);
        TrimWrapped(value);
        TSpan(0.0, style.lineHeight, name, NonEmpty(Shorten(v, k)), NonEmpty(title))
      else
        TSpan(0.0, style.lineHeight, name, NonEmpty(v), None)
  }

  /**
   * Six pixels per character, and a cut at index 4 of anything longer than
   * eight characters: enough to exhibit the title bug on concrete lines.
   */
  function ExampleStyle(): LineStyle {
    LineStyle(1.0, 1.0, Metrics(s => |s| as real * 6.0,
      (s: string, w: real, f: string -> real, e: real) => if |s| > 8 then 4 else -1))
  }

  /** A cut name with value "39.1": no title as written; the corrected line's title is "39.1". */
  lemma NameCutTitleExample()
    ensures RenderLineAsWritten(ExampleStyle(), "culmen_length_mm", "39.1").title == None
    ensures RenderLine(ExampleStyle(), "culmen_length_mm", "39.1").title == Some("39.1")
  {
    assert NameCut(ExampleStyle(), "culmen_length_mm") == 4;
    assert !IsSpace('3') && !IsSpace('1');
    assert Trim("39.1") == "39.1";
  }

  /**
   * A cut value: as written the title repeats the truncated "Ade…"; the
   * corrected line's title is the whole value.
   */
  lemma ValueCutTitleExample()
    ensures RenderLineAsWritten(ExampleStyle(), "species", "Adelie Penguin").title == Some("Ade" + Ellipsis)
    ensures RenderLine(ExampleStyle(), "species", "Adelie Penguin").title == Some("Adelie Penguin" + ZeroWidthSpace)
  {
    var style := ExampleStyle();
    assert NameCut(style, "species") == -1;
    assert |Wrap("Adelie Penguin")| == 16;
    assert ValueCut(style, "species", "Adelie Penguin") == 4;
    assert Prefix(Wrap("Adelie Penguin"), 4) == " Ade";
    assert !IsSpace('e') && !IsSpace('\U{2026}') && IsSpace(' ') && !IsSpace('A');
    assert TrimEnd(" Ade") == " Ade";
    var v := " Ade" + Ellipsis;
    assert Shorten(Wrap("Adelie Penguin"), 4) == v;
    assert TrimEnd(v) == v;
    assert v[1..] == "Ade" + Ellipsis;
    assert TrimStart(v) == TrimStart("Ade" + Ellipsis);
    assert TrimStart("Ade" + Ellipsis) == "Ade" + Ellipsis;
    assert Trim(v) == "Ade" + Ellipsis;
    assert TrimStart("Adelie Penguin") == "Adelie Penguin";
  }

  /** Where a channel's `source` link leads: nowhere (`undefined`), explicitly `null`, or a channel. */
  datatype Source = Unset | Null | From(channel: Channel)

  /** A resolved channel: its values, the name of its scale, and its `source` link. */
  datatype Channel = Channel(value: seq<string>, scale: Option<string>, source: Source)

  /** `d` lies on the chain of `source` links starting at `c` (`c` included). */
  ghost predicate Upstream(c: Channel, d: Channel)
    decreases c
  {
    c == d || (c.source.From? && Upstream(c.source.channel, d))
  }

  /** The end of the `source` chain from `c`: the channel with no further source. */
  function SourceRoot(c: Channel): (r: Channel)
    ensures !r.source.From?
    ensures Upstream(c, r)
    decreases c
  {
    if c.source.From? then SourceRoot(c.source.channel) else c
  }

  /** The end of a chain is the only channel on it without a further source. */
  lemma {:induction false} SourceRootUnique(c: Channel, d: Channel)
    requires Upstream(c, d) && !d.source.From?
    ensures d == SourceRoot(c)
    decreases c
  {
    if c != d {
      SourceRootUnique(c.source.channel, d);
    }
  }

  /** The result of `getSource`: `undefined` for a missing channel, `null` for a hidden one, or a channel. */
  datatype Lookup = Missing | Hidden | Found(channel: Channel)

  /** What `getSource(channels, key)` returns. */
  function ResolveSource(channels: map<string, Channel>, key: string): Lookup {
    if key !in channels then Missing
    else
      var root := SourceRoot(channels[key]);
      if root.source.Null? then Hidden else Found(root)
  }

  /**
   * `getSource` answers null exactly when the chain from the key's channel
   * ends on an explicit `source === null`, and otherwise the channel that ends it.
   */
  lemma HiddenIffChainEndsOnNull(channels: map<string, Channel>, key: string)
    ensures ResolveSource(channels, key) == Hidden <==>
      key in channels && exists d :: Upstream(channels[key], d) && d.source == Null
    ensures ResolveSource(channels, key).Found? ==>
      key in channels && Upstream(channels[key], ResolveSource(channels, key).channel) &&
      ResolveSource(channels, key).channel.source == Unset
  {
    if key in channels {
      if d :| Upstream(channels[key], d) && d.source == Null {
        SourceRootUnique(channels[key], d);
      }
    }
  }

  /** `getSource`: walks the `source` links from the key's channel. */
  method GetSource(channels: map<string, Channel>, key: string) returns (r: Lookup)
    ensures r == ResolveSource(channels, key)
  {
    if key !in channels {
      return Missing;
    }
    var channel := channels[key];
    while channel.source.From?
      invariant SourceRoot(channel) == SourceRoot(channels[key])
      decreases channel
    {
      channel := channel.source.channel;
    }
    r := if channel.source.Null? then Hidden else Found(channel);
  }

  /**
   * Which `renderLine` a text is built with: the program as written, or the
   * corrected one whose titles carry what a cut hides.
   */
  datatype Titles = AsWritten | Corrected

  /** `renderLine` under a title policy, as a function of a line's name and value. */
  function Renderer(titles: Titles, style: LineStyle): (render: (string, string) -> TSpan)
    ensures forall name, value :: titles.AsWritten? ==> render(name, value) == RenderLineAsWritten(style, name, value)
    ensures forall name, value :: titles.Corrected? ==> render(name, value) == RenderLine(style, name, value)
  {
    match titles
    case AsWritten => (name, value) => RenderLineAsWritten(style, name, value)
    case Corrected => (name, value) => RenderLine(style, name, value)
  }

  /** A scale, as far as the tip reads it: its optional `label`. */
  datatype Scale = Scale(axisLabel: Option<string>)

  /**
   * What the lines of a datum are made from: `renderLine` as a function of
   * name and value, the line height, the channels by key, the scales by name,
   * and `formatDefault`.
   */
  datatype Env = Env(
    render: (string, string) -> TSpan,
    lineHeight: real,
    channels: map<string, Channel>,
    scales: map<string, Scale>,
    format: Option<string> -> string)

  /** Every line is a tspan at x = 0 moving down one `lineHeight`, as `renderLine` makes it. */
  ghost predicate Stacked(env: Env) {
    forall name, value :: env.render(name, value).x == 0.0 && env.render(name, value).dy == env.lineHeight
  }

  /** The environment of a render that builds its lines with `renderLine` under a title policy. */
  function RenderEnv(titles: Titles, style: LineStyle, channels: map<string, Channel>, scales: map<string, Scale>,
                     format: Option<string> -> string): (env: Env)
    ensures Stacked(env)
    ensures env.render == Renderer(titles, style) && env.lineHeight == style.lineHeight
    ensures env.channels == channels && env.scales == scales && env.format == format
  {
    var env := Env(Renderer(titles, style), style.lineHeight, channels, scales, format);
    assert forall name, value :: env.render(name, value).x == 0.0 && env.render(name, value).dy == env.lineHeight by {
      forall name, value
        ensures env.render(name, value).x == 0.0 && env.render(name, value).dy == env.lineHeight
      {
        if titles.AsWritten? {
          assert env.render(name, value) == RenderLineAsWritten(style, name, value);
        } else {
          assert env.render(name, value) == RenderLine(style, name, value);
        }
      }
    }
    env
  }

  /** `scales[channel.scale]?.label ?? key`: the scale's label when there is one, the key otherwise. */
  function Label(env: Env, c: Channel, key: string): (l: string)
    ensures c.scale.Some? && c.scale.value in env.scales && env.scales[c.scale.value].axisLabel.Some? ==>
      l == env.scales[c.scale.value].axisLabel.value
    ensures c.scale.None? || c.scale.value !in env.scales || env.scales[c.scale.value].axisLabel.None? ==> l == key
  {
    if c.scale.Some? && c.scale.value in env.scales && env.scales[c.scale.value].axisLabel.Some?
    then env.scales[c.scale.value].axisLabel.value
    else key
  }

  /** `formatDefault(channel.value[i])`; an index past the values reads `undefined`. */
  function Cell(env: Env, c: Channel, i: nat): string {
    env.format(if i < |c.value| then Some(c.value[i]) else None)
  }

  /** The line of channel `c` for datum `i`, shown under `key`. */
  function KeyLine(env: Env, i: nat, key: string, c: Channel): TSpan {
    env.render(Label(env, c, key), Cell(env, c, i))
  }

  /** The line a channel key contributes: one when its source resolves to a channel, none otherwise. */
  function ChannelLine(env: Env, i: nat, key: string): (lines: seq<TSpan>)
    ensures |lines| == if ResolveSource(env.channels, key).Found? then 1 else 0
  {
    match ResolveSource(env.channels, key)
    case Found(c) => [KeyLine(env, i, key, c)]
    case _ => []
  }

  /** The channel lines of datum `i`, in the enumeration order of `keys`. */
  function ChannelLines(env: Env, i: nat, keys: seq<string>): seq<TSpan>
    decreases |keys|
  {
    if keys == [] then []
    else ChannelLines(env, i, keys[..|keys| - 1]) + ChannelLine(env, i, keys[|keys| - 1])
  }

  /** A facet scale, as far as the tip reads it: its `label` and the formatted facet value. */
  datatype Facet = Facet(axisLabel: Option<string>, tick: string)

  /** `fx.label === undefined ? "fx" : fx.label`. */
  function FacetLabel(f: Facet, default: string): (l: string)
    ensures f.axisLabel.Some? ==> l == f.axisLabel.value
    ensures f.axisLabel.None? ==> l == default
  {
    if f.axisLabel.Some? then f.axisLabel.value else default
  }

  /** The line of a facet, named by its label or `default` and valued by its formatted tick. */
  function FacetRow(env: Env, f: Facet, default: string): TSpan {
    env.render(FacetLabel(f, default), f.tick)
  }

  function FacetLine(env: Env, f: Option<Facet>, default: string): seq<TSpan> {
    if f.Some? then [FacetRow(env, f.value, default)] else []
  }

  /** All lines of datum `i`: the channel lines, then an fx line, then an fy line. */
  function TextLines(env: Env, i: nat, keys: seq<string>, fx: Option<Facet>, fy: Option<Facet>): seq<TSpan> {
    ChannelLines(env, i, keys) + FacetLine(env, fx, "fx") + FacetLine(env, fy, "fy")
  }

  /** The loop over the channel keys of datum `i`: one line per key whose source resolves to a channel. */
  method RenderChannelLines(env: Env, i: nat, keys: seq<string>) returns (lines: seq<TSpan>)
    ensures lines == ChannelLines(env, i, keys)
  {
    lines := [];
    var n := 0;
    while n < |keys|
      invariant 0 <= n <= |keys|
      invariant lines == ChannelLines(env, i, keys[..n])
    {
      var key := keys[n];
      var channel := GetSource(env.channels, key);
      if channel.Found? {
        lines := lines + [KeyLine(env, i, key, channel.channel)];
      }
      assert keys[..n + 1][..n] == keys[..n];
      n := n + 1;
    }
    assert keys[..|keys|] == keys;
  }

  /** The text of datum `i`: the loop over the channel keys, then the facet lines. */
  method RenderText(env: Env, i: nat, keys: seq<string>, fx: Option<Facet>, fy: Option<Facet>) returns (lines: seq<TSpan>)
    ensures lines == TextLines(env, i, keys, fx, fy)
  {
    lines := RenderChannelLines(env, i, keys);
    if fx.Some? {
      lines := lines + [FacetRow(env, fx.value, "fx")];
    }
    if fy.Some? {
      lines := lines + [FacetRow(env, fy.value, "fy")];
    }
  }

  /** Lines follow the keys: the lines of `a + b` are those of `a`, then those of `b`. */
  lemma {:induction false} ChannelLinesAppend(env: Env, i: nat, a: seq<string>, b: seq<string>)
    ensures ChannelLines(env, i, a + b) == ChannelLines(env, i, a) + ChannelLines(env, i, b)
    decreases |b|
  {
    if b == [] {
      assert a + b == a;
    } else {
      var b' := b[..|b| - 1];
      assert (a + b)[..|a + b| - 1] == a + b';
      assert (a + b)[|a + b| - 1] == b[|b| - 1];
      ChannelLinesAppend(env, i, a, b');
    }
  }

  /** The keys whose source resolves to a channel, in order. */
  function Shown(env: Env, keys: seq<string>): seq<string>
    decreases |keys|
  {
    if keys == [] then []
    else
      var k := keys[|keys| - 1];
      Shown(env, keys[..|keys| - 1]) + (if ResolveSource(env.channels, k).Found? then [k] else [])
  }

  /** A key is shown exactly when it is enumerated and its source is neither missing nor null. */
  lemma {:induction false} ShownExactly(env: Env, keys: seq<string>, k: string)
    ensures k in Shown(env, keys) <==> k in keys && ResolveSource(env.channels, k).Found?
    decreases |keys|
  {
    if keys != [] {
      var init := keys[..|keys| - 1];
      ShownExactly(env, init, k);
      assert keys == init + [keys[|keys| - 1]];
    }
  }

  /** The j-th channel line is the line of the j-th shown key: one line per shown key, in order. */
  lemma {:induction false} ChannelLinesAreShownKeys(env: Env, i: nat, keys: seq<string>)
    ensures |ChannelLines(env, i, keys)| == |Shown(env, keys)|
    ensures forall j :: 0 <= j < |Shown(env, keys)| ==>
      var k := Shown(env, keys)[j];
      ResolveSource(env.channels, k).Found? &&
      ChannelLines(env, i, keys)[j] ==
        KeyLine(env, i, k, ResolveSource(env.channels, k).channel)
    decreases |keys|
  {
    if keys != [] {
      ChannelLinesAreShownKeys(env, i, keys[..|keys| - 1]);
    }
  }

  /**
   * The whole text: the channel lines, then the fx line, then the fy line,
   * every one a tspan at x = 0 moving down one `lineHeight`.
   */
  lemma TextLinesLayout(env: Env, i: nat, keys: seq<string>, fx: Option<Facet>, fy: Option<Facet>)
    requires Stacked(env)
    ensures var lines := TextLines(env, i, keys, fx, fy); var n := |ChannelLines(env, i, keys)|;
      && |lines| == n + (if fx.Some? then 1 else 0) + (if fy.Some? then 1 else 0)
      && lines[..n] == ChannelLines(env, i, keys)
      && (fx.Some? ==> lines[n] == FacetRow(env, fx.value, "fx"))
      && (fy.Some? ==> lines[|lines| - 1] == FacetRow(env, fy.value, "fy"))
      && (forall t :: t in lines ==> t.x == 0.0 && t.dy == env.lineHeight)
  {
    ChannelLinesDy(env, i, keys);
  }

  lemma {:induction false} ChannelLinesDy(env: Env, i: nat, keys: seq<string>)
    requires Stacked(env)
    ensures forall t :: t in ChannelLines(env, i, keys) ==> t.x == 0.0 && t.dy == env.lineHeight
    decreases |keys|
  {
    if keys != [] {
      ChannelLinesDy(env, i, keys[..|keys| - 1]);
    }
  }

  /** The line of `t` with its title removed. */
  function Untitled(t: TSpan): TSpan {
    t.(title := None)
  }

  /** Two environments that differ only in the titles their `renderLine` gives. */
  ghost predicate SameButTitles(e1: Env, e2: Env) {
    && e2 == e1.(render := e2.render)
    && forall name, value :: Untitled(e1.render(name, value)) == Untitled(e2.render(name, value))
  }

  /** `renderLine` as written and corrected differ only in titles. */
  lemma RenderersDifferInTitles(env: Env, style: LineStyle)
    ensures SameButTitles(env.(render := Renderer(AsWritten, style)), env.(render := Renderer(Corrected, style)))
  {
    var e1, e2 := env.(render := Renderer(AsWritten, style)), env.(render := Renderer(Corrected, style));
    forall name, value
      ensures Untitled(e1.render(name, value)) == Untitled(e2.render(name, value))
    {
      assert e1.render(name, value) == RenderLineAsWritten(style, name, value);
      assert e2.render(name, value) == RenderLine(style, name, value);
    }
  }

  /** Same lines but for their titles, position by position. */
  predicate SameLinesButTitles(a: seq<TSpan>, c: seq<TSpan>) {
    |a| == |c| && forall j :: 0 <= j < |a| ==> Untitled(a[j]) == Untitled(c[j])
  }

  lemma SameLinesButTitlesAppend(a1: seq<TSpan>, a2: seq<TSpan>, c1: seq<TSpan>, c2: seq<TSpan>)
    requires SameLinesButTitles(a1, c1) && SameLinesButTitles(a2, c2)
    ensures SameLinesButTitles(a1 + a2, c1 + c2)
  {
    forall j | 0 <= j < |a1 + a2|
      ensures Untitled((a1 + a2)[j]) == Untitled((c1 + c2)[j])
    {
      if j < |a1| {
        assert (a1 + a2)[j] == a1[j] && (c1 + c2)[j] == c1[j];
      } else {
        assert (a1 + a2)[j] == a2[j - |a1|] && (c1 + c2)[j] == c2[j - |a1|];
      }
    }
  }

  /** The channel lines of two such environments are the same lines, but for their titles. */
  lemma {:induction false} ChannelLinesDifferInTitles(e1: Env, e2: Env, i: nat, keys: seq<string>)
    requires SameButTitles(e1, e2)
    ensures SameLinesButTitles(ChannelLines(e1, i, keys), ChannelLines(e2, i, keys))
    decreases |keys|
  {
    if keys != [] {
      var init, k := keys[..|keys| - 1], keys[|keys| - 1];
      ChannelLinesDifferInTitles(e1, e2, i, init);
      assert ChannelLine(e1, i, k) == [] <==> ChannelLine(e2, i, k) == [];
      SameLinesButTitlesAppend(ChannelLines(e1, i, init), ChannelLine(e1, i, k), ChannelLines(e2, i, init), ChannelLine(e2, i, k));
    }
  }

  /**
   * The text of two such environments has the same lines, with the same
   * names and text nodes in the same order: only titles differ.
   */
  lemma TextsDifferInTitles(e1: Env, e2: Env, i: nat, keys: seq<string>, fx: Option<Facet>, fy: Option<Facet>)
    requires SameButTitles(e1, e2)
    ensures SameLinesButTitles(TextLines(e1, i, keys, fx, fy), TextLines(e2, i, keys, fx, fy))
  {
    ChannelLinesDifferInTitles(e1, e2, i, keys);
    var a1, a2, a3 := ChannelLines(e1, i, keys), FacetLine(e1, fx, "fx"), FacetLine(e1, fy, "fy");
    var c1, c2, c3 := ChannelLines(e2, i, keys), FacetLine(e2, fx, "fx"), FacetLine(e2, fy, "fy");
    assert SameLinesButTitles(a2, c2) && SameLinesButTitles(a3, c3);
    SameLinesButTitlesAppend(a1, a2, c1, c2);
    SameLinesButTitlesAppend(a1 + a2, a3, c1 + c2, c3);
  }

  /**
   * What the program emits and the corrected text have the same lines, with
   * the same names and text nodes in the same order: only titles differ.
   */
  lemma AsWrittenAndCorrectedTexts(style: LineStyle, channels: map<string, Channel>, scales: map<string, Scale>,
                                   format: Option<string> -> string, i: nat, keys: seq<string>,
                                   fx: Option<Facet>, fy: Option<Facet>)
    ensures SameLinesButTitles(TextLines(RenderEnv(AsWritten, style, channels, scales, format), i, keys, fx, fy),
                               TextLines(RenderEnv(Corrected, style, channels, scales, format), i, keys, fx, fy))
  {
    var e1 := RenderEnv(AsWritten, style, channels, scales, format);
    RenderersDifferInTitles(e1, style);
    assert RenderEnv(Corrected, style, channels, scales, format) == e1.(render := Renderer(Corrected, style));
    TextsDifferInTitles(e1, RenderEnv(Corrected, style, channels, scales, format), i, keys, fx, fy);
  }
}
