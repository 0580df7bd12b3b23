# Tooltip mark: orientation, balloon geometry and line layout

This project models the core of the `tip` mark of a charting library
(`src/marks/tip.js`). A tip is a speech balloon. Its flag points at an anchor
point, and its text lists one line per channel of a datum, each line made of
a bold name and a value. Five pieces are modelled:

- **Orientation with hysteresis.** When no `anchor` is fixed, each item gets
  one of four orientations from four fit tests against the canvas. The mark
  keeps one mutable `previousAnchor`, so a balloon keeps a side until that
  side stops fitting and the opposite one fits (`TipAnchor`, and the `Tip`
  class in `TipMark`). An orientation names where the anchor point sits on
  the balloon: with "top-left" the body extends right of and below the point.
- **Balloon geometry.** `getPath` is modelled as a sequence of path commands,
  plus the pen trace of that path. `getTextTransform` and `getLineOffset` are
  also here (`TipGeometry`).
- **Per-line truncation.** `renderLine` decides which of name and value is
  shortened, what the value is wrapped in, what budget each part gets, and
  what title results. `cut`, `widthof` and the ellipsis width are abstract
  (`TipLines`).
- **Line enumeration.** `getSource` walks the `source` links of a channel
  with the null/undefined distinction. The line loop emits channel lines in
  key order, then the fx line, then the fy line (`TipLines`).
- **Constructor wiring.** Which of x/y/x1/x2/y1/y2 are ignored or optional,
  the option defaults, and the rejection of half a range and of an unknown
  anchor (`TipMark`).

The ECMAScript string operations the code relies on (`trimEnd`, `trim`,
`slice`) are in `JsText`. U+200B is not white space for them, so the
zero-width space that follows a value survives `trim`. Coordinates, sizes and
line heights are exact `real`s, while the program computes with float64
(see "Left out").

Three facts about the code that are easy to get wrong:

- A point at (100, 100) on a 200 by 200 canvas with a 40 by 20 box resolves
  to "bottom-right": all four fit tests pass, and with no memory the code
  keeps the defaults right and bottom (`TipAnchor.CenteredPointExample`).
- A "-left" balloon extends to the right of its point, and a "top-" balloon
  extends below it (`fitLeft` tests room on the right).
- The title of a truncated line is not the full text; see Findings.

## Model

| member | source | states |
|---|---|---|
| `TipAnchor.MaybeAnchor` | src/marks/tip.js:178-180 | an absent anchor means automatic; exactly the four keywords are accepted, each read back as the orientation of that name; anything else is an error |
| `TipAnchor.MaybeAnchorName` | src/marks/tip.js:178-180 | every orientation's keyword parses back to that orientation |
| `TipAnchor.NameTests` | src/marks/tip.js:150-151 | `/-left$/` on an orientation's keyword holds exactly for the left variants, `/^top-/` exactly for the top variants |
| `TipAnchor.PrevTests` | src/marks/tip.js:145-151 | the two tests on `previousAnchor` see its side, and an absent (undefined) memory passes neither test |
| `TipAnchor.Compose` | src/marks/tip.js:152 | the stored orientation has exactly the two resolved sides |
| `TipAnchor.ComposeName` | src/marks/tip.js:152 | the keyword of that orientation is `${ay}-${ax}` |
| `TipAnchor.HorizontalSide` | src/marks/tip.js:150 | only left fits: left; only right fits: right; both or neither: the previous side, absent counting as right |
| `TipAnchor.VerticalSide` | src/marks/tip.js:151 | only top fits: top; only bottom fits: bottom; both or neither: the previous side, absent counting as bottom |
| `TipAnchor.Resolve` | src/marks/tip.js:143-153 | a fixed anchor is returned and the memory left untouched; otherwise the result is stored; a remembered side is kept while it fits |
| `TipAnchor.FlipsOnlyWhenForced` | src/marks/tip.js:150-151 | a side changes from the remembered one only when it no longer fits and the opposite side does |
| `TipAnchor.ResolveStable` | src/marks/tip.js:150-152 | resolving again with the stored memory and unchanged measurements gives the same orientation |
| `TipAnchor.CenteredPointExample` | src/marks/tip.js:146-152 | the centred 40 by 20 box on a 200 by 200 canvas passes all four tests and resolves to bottom-right |
| `TipGeometry.GetPath` | src/marks/tip.js:199-211 | six commands from the origin, closed; the flag segment is (m, m), (-m, m), (m, -m), (-m, -m) for top-left, top-right, bottom-left, bottom-right |
| `TipGeometry.OutlineCorners` | src/marks/tip.js:199-211 | the traced outline: flag ends on the body's near edge, then three body corners, then x = 0 before `z`, so the closing edge is vertical and returns to the point |
| `TipGeometry.OutlineSpan` | src/marks/tip.js:199-211 | every vertex lies in a box width + 2r wide and m + height + 2r tall whose edges the outline reaches |
| `TipGeometry.PathMirrorsX` | src/marks/tip.js:203-210 | each right variant's path is the left variant's mirrored in x |
| `TipGeometry.PathMirrorsY` | src/marks/tip.js:203-210 | each bottom variant's path is the top variant's mirrored in y |
| `TipGeometry.TextTransform` | src/marks/tip.js:193-197 | the text block is inset by r from both side edges of the body and from the edge the flag meets; height plays no part |
| `TipGeometry.LineOffset` | src/marks/tip.js:189-191 | top-: the first baseline lands at 0.94em for any line height; bottom-: the last of n baselines lands at -0.29em for any n |
| `TipGeometry.VerticalIndependentOfSide` | src/marks/tip.js:189-197 | the line offset and the text's vertical place do not depend on the horizontal side |
| `JsText.TrimEnd` | src/marks/tip.js:117 | the longest prefix not ending in ECMAScript white space |
| `JsText.Trim` | src/marks/tip.js:126 | the result is the input with white space, and only white space, removed from its two ends; it neither starts nor ends with white space; a string without white space at its ends is unchanged |
| `JsText.TrimBothEnds` | src/marks/tip.js:126 | a prefix followed only by white space, then a suffix of it preceded only by white space, is the input trimmed at both ends |
| `JsText.Prefix` | src/marks/tip.js:117 | `slice(0, j)` is a prefix of length j, clamped to the string's length |
| `TipLines.RenderLineAsWritten` | src/marks/tip.js:111-133 | a cut name: name shortened with an ellipsis, value dropped, no title; a fitting name: kept verbatim and followed by the value text; a cut value: shortened with an ellipsis, and its title is that shortened text; at most one of the two is cut |
| `TipLines.TrimWrapped` | src/marks/tip.js:121-126 | trimming `" " + value + "\u200b"` leaves the value without its leading white space, followed by the zero-width space |
| `TipLines.RenderLine` | src/marks/tip.js:111-133 | the corrected line: same name and text as written; a cut name's title is the trimmed dropped value; a cut value's title is the whole value without its leading white space, followed by the zero-width space (U+200B) that ends every shown value; no title when nothing is cut |
| `TipLines.NameCutTitleExample` | src/marks/tip.js:115-119 | as written, a cut name with a non-empty value leaves no title; corrected, the title is the value |
| `TipLines.ValueCutTitleExample` | src/marks/tip.js:121-127 | as written, a cut value's title repeats the truncated text; corrected, it is the whole value followed by the zero-width space |
| `TipLines.SourceRoot` | src/marks/tip.js:185 | following `source` links ends at a channel on the chain that has no further source |
| `TipLines.SourceRootUnique` | src/marks/tip.js:185 | that end is the only channel on the chain without a further source |
| `TipLines.HiddenIffChainEndsOnNull` | src/marks/tip.js:182-187 | `getSource` gives null exactly when the key's chain ends on an explicit null source, and otherwise the end channel, whose source is unset |
| `TipLines.GetSource` | src/marks/tip.js:182-187 | the loop returns undefined for a missing channel, and otherwise null or the end of the chain |
| `TipLines.RenderEnv` | src/marks/tip.js:100-133 | a render's lines are built by that line function, so every line is a tspan at x = 0 moving down one `lineHeight` |
| `TipLines.Label` | src/marks/tip.js:103 | a line is named by its channel's scale's label when that scale has one, and by the key otherwise |
| `TipLines.FacetLabel` | src/marks/tip.js:76-77 | a facet line is named by the facet scale's label when defined, and "fx" or "fy" otherwise |
| `TipLines.ChannelLine` | src/marks/tip.js:101-103 | a key yields one line when its source resolves to a channel and none when it is missing or null |
| `TipLines.RenderChannelLines` | src/marks/tip.js:100-104 | the loop over the keys emits one line per key whose source resolves to a channel, in key order |
| `TipLines.RenderText` | src/marks/tip.js:100-106 | the emitted lines are the channel lines in key order, then the fx line, then the fy line, each built by the render's line function |
| `TipLines.RenderersDifferInTitles` | src/marks/tip.js:111-133 | `renderLine` as written and corrected give the same line but for its title |
| `TipLines.ChannelLinesDifferInTitles` | src/marks/tip.js:100-104 | with two line functions that differ only in titles, the channel lines are the same lines, names and text nodes in the same order |
| `TipLines.TextsDifferInTitles` | src/marks/tip.js:100-106 | the same holds for the whole text, facet lines included |
| `TipLines.AsWrittenAndCorrectedTexts` | src/marks/tip.js:100-133 | what the program emits and the corrected text have the same lines, names and text nodes in the same order; only titles differ |
| `TipLines.ChannelLinesAppend` | src/marks/tip.js:100-104 | the lines of two runs of keys are the lines of the first followed by those of the second |
| `TipLines.ShownExactly` | src/marks/tip.js:100-102 | a key gets a line exactly when it is enumerated and its source is neither missing nor null |
| `TipLines.ChannelLinesAreShownKeys` | src/marks/tip.js:100-104 | the j-th channel line is the line of the j-th shown key, named by its scale's label or the key and valued by the resolved channel |
| `TipLines.TextLinesLayout` | src/marks/tip.js:100-106 | the count is channel lines plus one per facet; the fx line follows the channel lines and the fy line is last; with stacking lines, every line is at x = 0 and moves down one `lineHeight` |
| `TipLines.ChannelLinesDy` | src/marks/tip.js:129 | when the line function stacks its lines as `renderLine` does, every channel line is a tspan at x = 0 that moves down one `lineHeight` em |
| `TipMark.WireChannels` | src/marks/tip.js:41-46 | a complete x1/x2 range ignores x; x and y are optional; half a range leaves the other end required and unbound; scales are x and y |
| `TipMark.Configure` | src/marks/tip.js:19-61 | construction fails exactly when one end of the x or y range is given without the other, or the anchor is not one of the four keywords; otherwise the wired channels, the parsed anchor, lineHeight 1 and lineWidth 20 by default, the monospace flag, and the monospace font family when monospace and no family is given |
| `TipMark.HalfRangeRejected` | src/marks/tip.js:43-46 | `x1` without `x2` leaves `x2` required and unbound, so construction fails (naming `y1` first when `y2` is given without `y1`) |
| `TipGeometry.TextInsetInBody` | src/marks/tip.js:193-210 | the text block of a width by height box lies in the balloon's body, r from each of its four edges |
| `TipMark.Place` | src/marks/tip.js:154-158 | a placed item's outline leaves the anchor point, reaches the body's near edge with the flag and returns to the point; its text sits in the body 8 px from every edge; its first (top-) or last (bottom-) baseline lands at 0.94em or -0.29em |
| `TipMark.TipEnv` | src/marks/tip.js:69-71 | a render of a tip measures its lines with `monospaceWidth` exactly when the tip is monospace (`defaultWidth` otherwise), cuts them at its `lineWidth`, and stacks them by its `lineHeight` |
| `TipMark.PlacedItem` | src/marks/tip.js:139-158 | the k-th placement of a pass is the placement of the k-th item in the orientation resolved for it |
| `TipMark.TextBaselines` | src/marks/tip.js:154-158 | in a render, the k-th balloon's first line (top-) or last emitted line (bottom-) sits on the 0.94em or -0.29em baseline, and its text lies in the body 8 px from every edge, the line count being that of the datum's text |
| `TipMark.PlacementsCompose` | src/marks/tip.js:139-153 | a pass over two runs of items is a pass over the first followed by a pass over the second starting from the memory the first left, so items share one memory within a pass over one canvas; across renders and facet panels the memory is shared through `Tip.previousAnchor`, which `Tip.Postrender` starts from and leaves behind |
| `TipMark.PlacementAt` | src/marks/tip.js:139-159 | each item is placed in the orientation resolved with the memory that the items before it left |
| `TipMark.FixedAnchorPlacements` | src/marks/tip.js:143-144 | with a fixed anchor every item uses it and the memory is unchanged |
| `TipMark.AutoMemoryIsLast` | src/marks/tip.js:152 | with automatic orientation the memory ends as the last item's orientation |
| `TipMark.RerenderStable` | src/marks/tip.js:143-153 | re-rendering an unchanged single item keeps its orientation |
| `TipMark.FitTestsMatchOutline` | src/marks/tip.js:146-149 | each fit test holds exactly when the outline of a balloon growing that way stays inside the canvas |
| `TipMark.Tip.constructor` | src/marks/tip.js:51 | a new tip holds its configuration and has no orientation memory |
| `TipMark.Tip.ResolveAnchor` | src/marks/tip.js:143-153 | the orientation and the new `previousAnchor` are those of `Resolve` on the old memory |
| `TipMark.Tip.Postrender` | src/marks/tip.js:135-159 | the placements and the final memory are those of the items in order, each resolved with the memory the previous one left |
| `TipMark.Tip.Render` | src/marks/tip.js:63-167 | the text of every datum is the line loop's output under this tip's line environment, and the placements and final memory are those of the measurement pass over the measured items, each with the line count of its text |
| `TipMark.NewTip` | src/marks/tip.js:19-62 | construction fails exactly when `Configure` does (half a range, or a bad anchor), and otherwise gives a fresh tip with its configuration and no memory |

## Findings

| source | as written | input that shows it | evidently intended | confidence | as-written member | corrected member |
|---|---|---|---|---|---|---|
| src/marks/tip.js:118-126 | `title = value.trim()` runs after `value` has been emptied (truncated name) or truncated (truncated value). A truncated name therefore never gets a title, and a truncated value's title repeats its truncated text. | name "culmen_length_mm" cut at 4 with value "39.1": no title. Name "species" with value "Adelie Penguin" cut at 4: title "Ade…". | Take the title from the value before it changes, so that the hidden text can be read in the title. | medium, not executed | `TipLines.RenderLineAsWritten` | `TipLines.RenderLine` |

The line loop (`TipLines.RenderText`, `TextLines`) takes the line function
as part of its environment. The order and count of its lines are proved for
any line function, and their x/dy layout for any line function that stacks
its lines as `renderLine` does. `RenderEnv(AsWritten, ...)` gives what the program emits, and
`RenderEnv(Corrected, ...)` gives the text with the intended titles. Both emit
the same lines with the same names and text nodes, and differ only in titles
(`TipLines.AsWrittenAndCorrectedTexts`).

## Left out

- DOM and d3 construction (`create`, `selectAll().data().enter()`, `append`, `setAttribute`, text nodes) and the `template` transform strings are left out. Their effect is modelled as `TSpan` and `Placement` records.
- `getBBox` measurements and the deferred call through `Promise.resolve().then` or `requestAnimationFrame` are host I/O and scheduling. `Tip.Render` always runs the measurement pass; when the svg is not connected and `requestAnimationFrame` is undefined, the program never runs it, so nothing is placed and `previousAnchor` keeps its value, a case the model does not cover. Box sizes and the canvas size are inputs (`measure` in `Tip.Render`, `Frame`). An item's line count, `text.childNodes.length`, is the number of lines its text loop emitted (`MeasuredItem`, `Tip.Render`).
- `cut`, `defaultWidth` and `monospaceWidth` (`src/marks/text.js`) are not part of this model. They are the abstract fields of `Metrics`, and nothing is claimed about what `cut` returns.
- The base mark (`src/mark.js`) is not part of this model. Its rejection at construction of a required channel with no value is modelled in `Configure`, checking channels in declaration order before the anchor; its message text is not modelled.
- `maybeKeyword` is not part of this model. `MaybeAnchor` matches the keywords exactly and does not fold case. The error message text is not modelled.
- `maybeFrameAnchor`, `applyFrameAnchor`, `maybeTuple`, `number` and `string` are not part of this model. The frame-anchor fallback point (cx, cy) is folded into each `Item`'s x and y.
- The font options other than the family, `textAnchor`, and the `tip()` helper are left out. They only pass values to helpers that are not shown.
- The style helpers (`apply*Styles`, `applyTransform`) and the `fill`/`stroke` attributes of the text are presentation, not layout.
- `formatDefault`, `inferTickFormat` and the facet scales `fx(index.fx)` and `fy(index.fy)` are not part of this model. Formatting is the `format` parameter of `Env`. A facet's formatted value is `Facet.tick`, and its pixel offset less the margin is `Frame.ox`/`Frame.oy`.
- A facet scale whose `label` is `null` (rather than undefined) would produce a null line name. It is not modelled: `FacetLabel` reads an absent label as undefined.
- Floating point: the program adds and compares float64 numbers, and the model exact reals. Near a boundary rounding can flip a strict comparison (in float64 `0.1 + 0.2 > 0.3` holds), so a fit test or a width budget may differ from the model by one rounding there.
- `JsText.Prefix`: indices and lengths count Unicode scalar values. JavaScript's `slice` and `length` count UTF-16 code units, so for text outside the Basic Multilingual Plane (emoji, for instance) a cut index reads differently.
- `TipLines.GetSource`: `Channel` is an inductive datatype, so a `source` chain is always finite. A cyclic chain, on which `while (channel.source)` never ends, cannot be expressed.
- Explicit `null` in the defaulted options is not modelled: `TipOptions` reads an absent option as undefined. The program gives `lineHeight: null` and `lineWidth: null` the value `+null = 0`, and keeps `fontFamily: null` even when monospace, since a default replaces only undefined.
- `TextBox`: the measured text box is taken to start at the text's origin for top- orientations and to end there for bottom- ones. That is what the 0.94em and -0.29em offsets aim at for the font's ascent and descent; font metrics are not modelled, so the text-in-body statements of `Place`, `TextInsetInBody` and `TextBaselines` rest on it.
- The `toFixed(6)` rounding of the line offset and the SVG path string are left out. The model keeps the exact numbers.
- The order of `for (const key in ...)` is given as the `keys` sequence. ECMAScript's rule that integer-like keys come first is not modelled.
- Channel values are modelled as strings, with an index past the values read as undefined.
- `TipMark.RerenderStable`: stated for one item only. With several items, a re-render starts from the last item's orientation, so the first item may legitimately change.
- test/plots/projection-fit-identity.js and test/plots/culmen-regression-faceted.js are declarative chart configurations with no logic of this component.
