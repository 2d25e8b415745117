# HUD kit colours and widgets, in Dafny

This project models the core of a small pygame HUD kit. The core is the
colour arithmetic of `colors.py` and the three widgets of
`hud_components.py`: the progress `Bar`, the push `Button` and the `TextBox`.

- `outcomes.dfy` (`Outcomes`) holds the Python exceptions the core raises
  (TypeError, ValueError, KeyError, ZeroDivisionError). It also holds the
  `Result` and `Option` types that carry them.
- `numeric.dfy` (`Numeric`) writes out Python's `int()` on a float
  (truncation toward zero), `abs`, `max` and `min` over exact reals.
- `vectors.dfy` (`Vectors`) stands for pygame's `Vector2` and the
  `(pos, size)` rectangles built from it. A rectangle is also viewed one
  axis at a time, as a `Span`.
- `colors.dfy` (`Colors`) covers the following:
  - A colour value is four channels in 0..255 (`Rgba`). `Color` is the
    mutable object whose `lighten`/`darken` work in place.
  - `make_color` and `validate_color` turn Python values into colours or
    errors.
  - Every looping effect (`dark`, `light`, `contrast_dark_light`,
    `contrast_color`, `max_bright`, `step_to`) is a method that copies the
    colour and rewrites it channel by channel in a loop. Each such method is
    proved equal to a function of the colour value, and lemmas state what
    that function guarantees. `alpha` sets one channel without a loop and
    is a function.
- `bar.dfy` (`Bars`) covers the following:
  - The anchor and fill-direction tables, `fullness` and `set_curr_value`.
  - The two fill-rectangle computations, written as the source writes
    them with vector operations. They are proved axis by axis: what the fill
    is along and across the fill axis, and that it stays inside the bar.
  - A `Bar` class whose setters update its fields.
- `button.dfy` (`Buttons`) covers the following:
  - The strict-interior hit test and the hover/press update.
  - A ghost log of the hover and click callbacks the update fires.
  - The colours `draw` picks for each state, and the `resize_txt` rule
    with its settling property.
- `text_box.dfy` (`TextBoxes`) covers the alignment tables and setters, the
  truncating `txt_size` setter, the alignment offset used when drawing, and
  the stricter `resize_txt` rule, compared with the button's.

The mouse position and primary-button state that `Button.update` polls are
method parameters. The rendered text width and height that `resize_txt`
receives are parameters too.

Where the code and its own comments disagree, the model follows the code:

- `Color.lighten` replaces each channel by `int((255 - c) * p)`. Its comment
  promises 155 → 205 at p = 0.5, but the code gives 50; see
  `Colors.LightenReplacesChannel`.
- `max_bright` scans indices 1 and 2 after starting from index 0, so all
  three colour channels are compared.
- The `on_hover` and `on_click` property getters call the stored value when
  it is callable. The model takes the callbacks to be callables, so the
  bare attribute reads in `Button.update` fire them.
- The `% 256` in `dark` never changes a halved channel.

## Model

| member | source | states |
|---|---|---|
| Numeric.Trunc | hud_components.py:439-441 | Python `int()` on a float: the integer toward zero within 1 of x, on either side of 0 |
| Colors.Rgba.With | colors.py:84-85 | `c[i] = x` sets channel i to x and leaves the other three channels as they were |
| Colors.FromChannels | colors.py:158-160 | `Color(*items)` succeeds exactly for 3 or 4 items all in 0..255. The channels are the items, and alpha is 255 when only 3 are given |
| Colors.MakeColor | colors.py:149-162 | a Color is returned as is; a 3- or 4-item sequence becomes a colour, or ValueError if an item is out of range; anything else, including the forms only pygame reads, is TypeError |
| Colors.ValidateColor | colors.py:141-147 | whatever make_color accepts, validate_color accepts with the same colour; when validate_color gives False, make_color raises |
| Colors.ValidateAgreesWithMake | colors.py:141-162 | the two part ways exactly on the forms only pygame reads (names, hex strings, packed integers, plain pygame Colors): validate_color gives their colour, make_color raises TypeError |
| Colors.MakeColorRoundTrip | colors.py:158-160 | a colour written as a 4-tuple comes back unchanged; as a 3-tuple it comes back with alpha 255 |
| Colors.LuminanceOf | colors.py:164-167 | luminance lies in 0..1; it is 0 exactly for black and 1 exactly for white |
| Colors.GetLuminance | colors.py:164-167 | get_luminance fails exactly when make_color fails, with its error; otherwise the result is in 0..1 |
| Colors.Scale | colors.py:22 | `int(c * p)` for 0 <= p <= 1 is c·p rounded down and never above c |
| Colors.HalfChannel | colors.py:85 | `int(c/2) % 256` is half of c rounded down |
| Colors.LightChannel | colors.py:92 | `c + int((255 - c)/2)` moves c up by half its headroom, rounded down |
| Colors.ClampTrunc | colors.py:107 | `int(min(max(y, 0), 255))` is at most y when y >= 0, within 1 below y when 0 <= y < 255, 255 from 255 up, and 0 for a negative y |
| Colors.ContrastChannel | colors.py:105-107 | scaling by 1.5 never lowers the channel and scaling by 0.5 never raises it. The result is c·n rounded down whenever c·n < 255, and exactly 255 when c·n reaches 255 |
| Colors.ShiftChannel | colors.py:113 | `(c - int(255/3)) % 256` is undone by adding 85 modulo 256 |
| Colors.BrightChannel | colors.py:123 | `int(c * (255/m))` is c·255/m rounded down, and the largest channel m goes to 255 |
| Colors.StepChannel | colors.py:137 | `c + int((t - c)/2)` ends between c and t, half the way there, rounded toward c |
| Colors.DarkenedBy | colors.py:20-26 | darken keeps alpha and leaves the colour unchanged for p outside (0, 1] |
| Colors.LightenedBy | colors.py:10-16 | lighten keeps alpha and leaves the colour unchanged for p outside (0, 1] |
| Colors.DarkenScalesChannels | colors.py:21-24 | for 0 < p <= 1 each of r, g, b becomes the channel times p rounded down, never larger than before |
| Colors.LightenScalesHeadroom | colors.py:11-14 | for 0 < p <= 1 each of r, g, b is replaced by its headroom times p, rounded down, never above the headroom |
| Colors.LightenReplacesChannel | colors.py:8-14 | lightening (155, 155, 155) by 0.5 gives (50, 50, 50), not the 205 the comment promises |
| Colors.ContrastAdjusted | colors.py:28-32 | contrast_lighten_darken darkens exactly when the luminance exceeds 0.5 and lightens otherwise |
| Colors.MaxRgb | colors.py:119-121 | the running maximum is one of r, g, b and no smaller than any of them |
| Colors.AverageLuminance | colors.py:130-132 | the average luminance lies in 0..1 and does not exceed the larger of the two luminances |
| Colors.DarkHalvesChannels | colors.py:82-87 | dark halves r, g and b (rounded down, so at most 127) and keeps alpha |
| Colors.LightHalvesHeadroom | colors.py:89-94 | light raises r, g and b by half their headroom (rounded down) and keeps alpha |
| Colors.ContrastDarkLightDirection | colors.py:103-108 | below luminance 0.5 the channels grow, by exactly 1.5 rounded down while that stays under 255, and a channel of 170 or more becomes 255. Otherwise each channel becomes c div 2. Alpha is kept |
| Colors.ContrastColorInvertible | colors.py:110-115 | contrast_color rotates each of r, g, b down by 85 modulo 256: it can be undone and keeps distinct colours distinct; alpha is kept |
| Colors.MaxBrightReachesFull | colors.py:117-124 | max_bright takes the largest colour channel to exactly 255 and keeps alpha |
| Colors.StepToBetween | colors.py:135-137 | without luminance mode every channel, alpha included, ends between its from and to values, half the way there |
| Colors.StepToBlackToWhite | colors.py:126-138 | stepping (0,0,0,255) toward (255,255,255,255) gives (127,127,127,255) |
| Colors.StepToLuminanceDims | colors.py:129-134 | luminance mode never raises a channel, alpha included; two white colours leave the colour unchanged |
| Colors.Color.constructor | colors.py:5-6 | a new Color holds the given channels |
| Colors.Color.Luminance | colors.py:35-38 | Color.luminance lies in 0..1, 0 exactly for black and 1 exactly for white |
| Colors.Color.Lighten | colors.py:10-16 | the object's new colour is the lightened old colour |
| Colors.Color.Darken | colors.py:20-26 | the object's new colour is the darkened old colour |
| Colors.Color.ContrastLightenDarken | colors.py:28-32 | the object's new colour is darkened when its luminance exceeded 0.5 and lightened otherwise |
| Colors.Lighten | colors.py:64-68 | lighten(color, p=0.5) gives False exactly when validate_color does, else the lightened colour; a colour make_color accepts is lightened as make_color reads it |
| Colors.Darken | colors.py:70-74 | darken(color, p=0.5) gives False exactly when validate_color does, else the darkened colour, no channel of which exceeds the original |
| Colors.ContrastLightenDarken | colors.py:76-80 | False exactly when validate_color gives False; otherwise darkened above luminance 0.5, lightened at or below |
| Colors.WithAlpha | colors.py:96-101 | alpha(color, a) keeps r, g, b and sets alpha to int(a); make_color's error or ValueError for an alpha outside 0..255 |
| Colors.Dark | colors.py:82-87 | the loop's result is the halved colour, or make_color's error |
| Colors.Light | colors.py:89-94 | the loop's result is the colour moved half way to white, or make_color's error |
| Colors.ContrastDarkLight | colors.py:103-108 | the loop's result is the contrast-scaled colour, or make_color's error |
| Colors.ContrastColor | colors.py:110-115 | the loop's result is the rotated colour, or make_color's error |
| Colors.MaxBright | colors.py:117-124 | the running maximum is the largest channel; a black colour divides by zero; otherwise the brightened colour |
| Colors.StepTo | colors.py:126-138 | make_color's error for `from`, then for `to`; otherwise the colour stepped in the chosen mode |
| Bars.TablesWellFormed | hud_components.py:45-56 | anchor components are 0, 1/2 or 1; direction components are 0 or 1 |
| Bars.Fullness | hud_components.py:96-101 | fullness is curr/max when that lies in -1..1, else 1 or -1 with the sign of curr/max |
| Bars.Clamped | hud_components.py:103-107 | the stored value is the value when its magnitude is at most max, else max with the value's sign |
| Bars.ClampKeepsFullness | hud_components.py:96-107 | for a positive max, clamping the stored value does not change the fullness |
| Bars.RelToAbs | hud_components.py:126-127 | the component-wise product of a relative vector with the bar's size; its bound is stated by Bars.RelToAbsWithinSize |
| Bars.RelToAbsWithinSize | hud_components.py:126-127 | a relative vector with both components in 0..1 lands within the bar's non-negative size on each axis |
| Bars.FillRectDefault | hud_components.py:129-134 | fill_rect_default in the source's vector form; what it computes on each axis is stated by Bars.FillRectDefaultByAxis, Bars.FillDefaultOnAxes, Bars.FillDefaultWhenFull and Bars.FillDefaultInsideBar |
| Bars.FillRectDefaultByAxis | hud_components.py:126-134 | the vector computation of fill_rect_default is DefaultSpan on each axis |
| Bars.DefaultSpanByDirection | hud_components.py:130-133 | along a fill axis the fill has extent size·fullness and offset anchor·(1 − fullness)·size; across it, the bar's span |
| Bars.FillAxisWithin | hud_components.py:130-133 | along a fill axis, with a table anchor and fullness in 0..1, the fill lies within the bar's span |
| Bars.DefaultSpanWithin | hud_components.py:129-134 | each axis of the default fill lies within the bar's span for fullness in 0..1 |
| Bars.FillDefaultOnAxes | hud_components.py:129-134 | fill_rect_default on each axis: size·fullness at offset anchor·(1 − fullness)·size on a fill axis, the bar's span on the other |
| Bars.FillDefaultWhenFull | hud_components.py:129-134 | at fullness 1 the default fill is the whole bar |
| Bars.FillDefaultInsideBar | hud_components.py:129-134 | for fullness in 0..1 and table anchor and direction, the default fill lies inside the bar |
| Bars.SplitFullness | hud_components.py:137 | the half-fullness of the split fill; its magnitude and sign are stated by Bars.SplitFullnessSign |
| Bars.FillRectSplit | hud_components.py:136-147 | fill_rect_split in the source's vector form; what it computes on each axis is stated by Bars.FillRectSplitByAxis, Bars.FillSplitOnAxes and Bars.FillSplitInsideBar |
| Bars.FillRectSplitByAxis | hud_components.py:136-147 | the vector computation of fill_rect_split is SplitSpan on each axis |
| Bars.SplitSpanOnAxis | hud_components.py:138-145 | on a fill axis the extent is the half-fullness magnitude times the size. The fill starts at the centre for h >= 0 and ends there for h < 0 |
| Bars.FillSplitOnAxes | hud_components.py:136-147 | fill_rect_split on each axis is as SplitAxis describes for the half-fullness |
| Bars.SplitFullnessSign | hud_components.py:137 | the half-fullness has magnitude |fullness|/2, and its sign flips only for 'vertical' |
| Bars.SplitAxisWithin | hud_components.py:136-147 | a split axis of at most half the bar lies within the bar's span |
| Bars.SplitSpanWithin | hud_components.py:136-147 | each axis of the split fill lies within the bar's span when the half-fullness is at most 1/2 |
| Bars.FillSplitWithinX | hud_components.py:136-147 | the horizontal axis of the split fill lies within the bar's |
| Bars.FillSplitWithinY | hud_components.py:136-147 | the vertical axis of the split fill lies within the bar's |
| Bars.FillSplitInsideBar | hud_components.py:136-147 | for fullness in -1..1 and a table direction, the split fill lies inside the bar |
| Bars.Bar.constructor | hud_components.py:58-74 | defaults: max_value 1.0, start_value 0, anchor 'left', direction 'horizontal', no split; start_value stored unclamped |
| Bars.Bar.Create | hud_components.py:58-74 | an unknown anchor or direction name raises KeyError; otherwise the fields are the table entries and arguments, with the same defaults as the constructor |
| Bars.Bar.SetFillDirection | hud_components.py:80-81 | a known name stores its table entry; an unknown one raises KeyError and changes nothing |
| Bars.Bar.SetSplit | hud_components.py:86-91 | afterwards fill_rect is the split rectangle exactly when split is True, else the default one |
| Bars.Bar.SetCurrValue | hud_components.py:103-107 | stores the clamped value, keeping the fullness for a positive max. A zero value with a negative max raises ZeroDivisionError |
| Bars.Bar.CurrentFullness | hud_components.py:96-101 | ZeroDivisionError exactly for a zero max_value, else the clamped fullness in -1..1 |
| Bars.Bar.FillRect | hud_components.py:93-95 | ZeroDivisionError exactly for a zero max_value, else the split or the default rectangle as the split flag says |
| Bars.Bar.FillInsideBar | hud_components.py:93-147 | a valid bar's split fill always lies inside the bar, and its default fill does too whenever the fullness is not negative |
| Buttons.ButtonResizeFor | hud_components.py:221-229 | no change exactly when the larger ratio lies in [r/2, r]; division by zero exactly when it is 0; otherwise the factor times the larger ratio is r |
| Buttons.ButtonResizeSettles | hud_components.py:221-229 | after one rescale the larger ratio is exactly r, and the next call leaves the size alone |
| Buttons.StateColors | hud_components.py:192-198 | an idle button is drawn in its own colours; a hovered, unpressed one in the contrast_dark_light of each; the fill's alpha is always kept |
| Buttons.PressedNeverBrightens | hud_components.py:195-198 | pressing halves the fill's colour channels and raises no channel of the outline or text |
| Buttons.Button.constructor | hud_components.py:152-170 | text size is height/2; neither hovered nor pressed; no callback fired |
| Buttons.Button.IsWithinRect | hud_components.py:217-219 | true exactly for points in the closed box that are not on its border |
| Buttons.Button.Update | hud_components.py:173-187 | Inside: hovered, on_hover fires, the primary button presses it, and on_click fires only on the unpressed→pressed change. Outside: neither hovered nor pressed |
| Buttons.Button.ResizeTxt | hud_components.py:221-229 | a zero box side or larger ratio raises ZeroDivisionError; otherwise the text size follows ButtonResizeFor |
| TextBoxes.AlignmentTables | hud_components.py:297-306 | both alignment tables map onto exactly {0, 1/2, 1} |
| TextBoxes.AlignOffset | hud_components.py:353-355 | the text's offset inside the box along one axis; where it puts the text is stated by TextBoxes.AlignOffsetPlacesText |
| TextBoxes.AlignOffsetPlacesText | hud_components.py:353-355 | text no longer than the box stays inside it: at the start for 0, the end for 1, equal margins for 1/2 |
| TextBoxes.TextResizeFor | hud_components.py:365-377 | scales when either ratio exceeds r; no change exactly when both lie in [r/2, r]; division by zero exactly when the larger is 0 |
| TextBoxes.TextResizesWhenButtonDoes | hud_components.py:365-377 | whenever the button rule rescales, the text box rule does the same |
| TextBoxes.TextResizeStricter | hud_components.py:365-377 | ratios 0.1 and 0.5 leave a button alone but make a text box scale by 1.2 |
| TextBoxes.TextResizeSettles | hud_components.py:365-377 | after one rescale the next call leaves the size alone or scales by 1 |
| TextBoxes.TextBox.constructor | hud_components.py:308-325 | alignments 'left' and 'center'; text size int(height/2) |
| TextBoxes.TextBox.Create | hud_components.py:308-325 | an unknown horizontal, then vertical, alignment name raises ValueError; otherwise the table values are stored; the names default to 'left' and 'center' |
| TextBoxes.TextBox.TextDrawnInside | hud_components.py:352-355 | in a box whose alignments are table values, a rendered text no larger than the box is drawn wholly inside it |
| TextBoxes.TextBox.SetHAlign | hud_components.py:446-451 | a known name stores its table value; any other raises ValueError and changes nothing |
| TextBoxes.TextBox.SetVAlign | hud_components.py:456-461 | a known name stores its table value; any other raises ValueError and changes nothing |
| TextBoxes.TextBox.SetTxtSize | hud_components.py:439-441 | stores int(size): within 1 of size and no further from zero |
| TextBoxes.TextBox.IsWithinRect | hud_components.py:361-363 | true exactly for points in the closed box that are not on its border |
| TextBoxes.TextBox.ResizeTxt | hud_components.py:365-377 | a zero box side or larger ratio raises ZeroDivisionError; otherwise the text size follows TextResizeFor, truncated |

## Left out

- Numbers are exact reals. Python's float rounding in `Vector2` maths, in
  luminance and in the scale factors is not modelled, so agreement is not
  bit-exact.
- `Camera` is not part of this model. It depends on pygame `Rect` integer
  coercion and clamping, which are not visible here.
- Every `draw` method is left out: surfaces, font rendering and blitting.
  Only the colour choice (`Buttons.StateColors`) and the alignment offset
  (`TextBoxes.AlignOffset`) are modelled. Both take rendered sizes as
  parameters.
- `fonts.py` is not part of this model. The `font` field each `resize_txt`
  refreshes is left out.
- Mouse polling is left out; the pointer position and primary-button state
  are parameters of `Update`.
- The callbacks themselves are left out: the model logs that they fire,
  not what they do.
- The callable "live-binding" branch of `make_color` and of the widget
  property getters is left out for colours, text, position and size:
  those attributes are plain values. The `on_hover` and `on_click`
  callbacks are taken to be callables, so their getters always call them.
- `TextBox.txt` stringification of non-string values is left out.
- The `print` diagnostics in `lighten`, `darken` and `validate_color` are
  left out.
- Styling fields (colours, border and outline widths, `auto_txt_resize`)
  are left out.
- The ignored `dt` argument of `update` is left out.
- How pygame parses its other colour forms (names, hex strings, packed
  integers) is left out. Such a value is `PygameForm` with the colour it
  denotes when pygame reads it, and `Unconvertible` when it does not.
- Colors.MaxBrightReachesFull: it holds for exact reals only. With
  doubles, `int(c * (255 / max_c))` can land one below the exact value
  (in double arithmetic the largest channel of (25, 0, 0) comes out as
  254), so the property is not claimed for float arithmetic.
- Colors.ContrastChannel: it is defined only for the factors 1.5 and 0.5,
  the only two `contrast_dark_light` uses.
- Buttons.StateColors: it takes colours that are already valid. The
  make_color errors `draw` could raise on an invalid stored colour are
  not modelled.
- Bars.Bar.SetSplit: the flag is a bool, so the `== True` test on
  arbitrary Python values is not modelled.
- Bars.FillDefaultInsideBar: it needs a fullness in 0..1. A negative
  fullness gives a negative extent, which lies outside the bar.
