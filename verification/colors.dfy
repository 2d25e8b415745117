/**
 * The colour helpers of the HUD kit (colors.py): a colour is four integer
 * channels r, g, b, a in 0..255. `Color` is the mutable colour object whose
 * lighten/darken methods work in place; the module-level effects copy their
 * argument and rewrite the copy channel by channel.
 */
module Colors {
  import opened Outcomes
  import opened Numeric

  /** A channel value. pygame's Color refuses any write outside 0..255 with
      a ValueError, so every channel the model writes is proved to be in range. */
  type Channel = c: int | 0 <= c <= 255

  /** The value of a colour. */
  datatype Rgba = Rgba(r: Channel, g: Channel, b: Channel, a: Channel)
  {
    /** Channel `i`, as `c[i]` reads it: 0 is red, 1 green, 2 blue, 3 alpha. */
    function At(i: nat): Channel
      requires i < 4
    {
      if i == 0 then r else if i == 1 then g else if i == 2 then b else a
    }

    /** The colour after `c[i] = x`. */
    function With(i: nat, x: Channel): (w: Rgba)
      requires i < 4
      ensures w.At(i) == x
      ensures forall j | 0 <= j < 4 && j != i :: w.At(j) == At(j)
    {
      if i == 0 then this.(r := x)
      else if i == 1 then this.(g := x)
      else if i == 2 then this.(b := x)
      else this.(a := x)
    }
  }

  /** Two colours are equal when they agree on all four channels. */
  lemma ChannelsDetermine(u: Rgba, v: Rgba)
    requires forall j | 0 <= j < 4 :: u.At(j) == v.At(j)
    ensures u == v
  {
    assert u.At(0) == v.At(0) && u.At(1) == v.At(1);
    assert u.At(2) == v.At(2) && u.At(3) == v.At(3);
  }

  // ---------------------------------------------------------------------
  // Making colours out of Python values
  // ---------------------------------------------------------------------

  /** The Python values the colour helpers accept as a colour argument
      (the callable "live-binding" case is not part of this model). */
  datatype ColorArg =
    | ColorObject(color: Rgba)   // an existing Color object of the kit
    | Sequence(items: seq<int>)  // a tuple or list of integers
    | PygameForm(color: Rgba)    // a value pygame's Color constructor reads but make_color
                                 // refuses (a colour name, a hex string, a packed integer,
                                 // a plain pygame Color), with the colour it denotes
    | Unconvertible              // any value pygame cannot read either (None, a float, ...)

  /** pygame's Color built from the channels in `items`: three or four
      integers in 0..255, alpha 255 when only three are given. */
  function FromChannels(items: seq<int>): (c: Option<Rgba>)
    ensures c.Some? <==> (|items| == 3 || |items| == 4) && forall i | 0 <= i < |items| :: 0 <= items[i] <= 255
    ensures c.Some? ==> forall i | 0 <= i < |items| :: c.value.At(i) == items[i]
    ensures c.Some? && |items| == 3 ==> c.value.a == 255
  {
    if (|items| == 3 || |items| == 4) && forall i | 0 <= i < |items| :: 0 <= items[i] <= 255 then
      Some(Rgba(items[0], items[1], items[2], if |items| == 4 then items[3] else 255))
    else
      None
  }

  /** make_color, non-callable branch: a Color is returned as it is, a 3- or
      4-element tuple or list becomes Color(*items) (whose out-of-range channels
      pygame rejects with ValueError), anything else raises TypeError. */
  function MakeColor(color: ColorArg): (res: Result<Rgba>)
    ensures color.ColorObject? ==> res == Ok(color.color)
    ensures color.Sequence? && |color.items| != 3 && |color.items| != 4 ==> res == Err(TypeError)
    ensures color.PygameForm? || color.Unconvertible? ==> res == Err(TypeError)
    ensures color.Sequence? && (|color.items| == 3 || |color.items| == 4) ==>
              (res.Ok? <==> forall i | 0 <= i < |color.items| :: 0 <= color.items[i] <= 255)
    ensures color.Sequence? && res.Ok? ==> forall i | 0 <= i < |color.items| :: res.value.At(i) == color.items[i]
    ensures color.Sequence? && res.Err? && (|color.items| == 3 || |color.items| == 4) ==> res.error == ValueError
  {
    match color
    case ColorObject(c) => Ok(c)
    case Sequence(items) =>
      if |items| == 3 || |items| == 4 then
        match FromChannels(items)
        case Some(c) => Ok(c)
        case None => Err(ValueError)
      else
        Err(TypeError)
    case PygameForm(_) => Err(TypeError)
    case Unconvertible => Err(TypeError)
  }

  /** validate_color: pygame's Color(color), with its ValueError and TypeError
      turned into the `False` sentinel. */
  function ValidateColor(color: ColorArg): (c: Option<Rgba>)
    ensures MakeColor(color).Ok? ==> c == Some(MakeColor(color).value)
    ensures c.None? ==> MakeColor(color).Err?
  {
    match color
    case ColorObject(c) => Some(c)
    case Sequence(items) => FromChannels(items)
    case PygameForm(c) => Some(c)
    case Unconvertible => None
  }

  /** validate_color and make_color part ways on exactly one kind of value:
      a form pygame reads but make_color refuses. validate_color returns the
      colour pygame reads from it; make_color raises TypeError. */
  lemma ValidateAgreesWithMake(color: ColorArg)
    ensures ValidateColor(color).Some? && MakeColor(color).Err? <==> color.PygameForm?
    ensures color.PygameForm? ==> ValidateColor(color) == Some(color.color) && MakeColor(color) == Err(TypeError)
  {
  }

  /** A colour written out as a 4-tuple comes back unchanged from make_color;
      written as a 3-tuple it comes back opaque. */
  lemma MakeColorRoundTrip(v: Rgba)
    ensures MakeColor(Sequence([v.r, v.g, v.b, v.a])) == Ok(v)
    ensures MakeColor(Sequence([v.r, v.g, v.b])) == Ok(v.(a := 255))
  {
    var four := MakeColor(Sequence([v.r, v.g, v.b, v.a]));
    assert four.value.At(0) == v.r && four.value.At(1) == v.g;
    assert four.value.At(2) == v.b && four.value.At(3) == v.a;
    var three := MakeColor(Sequence([v.r, v.g, v.b]));
    assert three.value.At(0) == v.r && three.value.At(1) == v.g && three.value.At(2) == v.b;
  }

  // ---------------------------------------------------------------------
  // Luminance
  // ---------------------------------------------------------------------

  /** 0.2126 r + 0.7152 g + 0.0722 b over the channels normalised to 0..1. */
  function LuminanceOf(v: Rgba): (l: real)
    ensures 0.0 <= l <= 1.0
    ensures l == 0.0 <==> v.r == 0 && v.g == 0 && v.b == 0
    ensures l == 1.0 <==> v.r == 255 && v.g == 255 && v.b == 255
  {
    0.2126 * (v.r as real / 255.0) + 0.7152 * (v.g as real / 255.0) + 0.0722 * (v.b as real / 255.0)
  }

  /** get_luminance: the luminance of anything make_color accepts. */
  function GetLuminance(color: ColorArg): (res: Result<real>)
    ensures res.Ok? <==> MakeColor(color).Ok?
    ensures res.Ok? ==> 0.0 <= res.value <= 1.0
    ensures res.Err? ==> res.error == MakeColor(color).error
  {
    match MakeColor(color)
    case Ok(c) => Ok(LuminanceOf(c))
    case Err(e) => Err(e)
  }

  // ---------------------------------------------------------------------
  // Per-channel arithmetic
  // ---------------------------------------------------------------------

  /** int(x * k) for a factor k in 0..1: never above x, and x * k rounded down. */
  function Scale(x: Channel, k: real): (c: Channel)
    requires 0.0 <= k <= 1.0
    ensures c <= x
    ensures c as real <= x as real * k < c as real + 1.0
  {
    var y := x as real * k;
    ProductBounds(x as real, k);
    assert 0.0 <= y <= x as real;
    var n := Trunc(y);
    assert n as real <= y;
    n
  }

  /** int(c/2) % 256 (`dark`): half the channel, rounded down. */
  function HalfChannel(c: Channel): (h: Channel)
    ensures 2 * h <= c <= 2 * h + 1
  {
    Trunc(c as real / 2.0) % 256
  }

  /** c + int((255 - c)/2) (`light`): half the way up to 255, rounded down. */
  function LightChannel(c: Channel): (h: Channel)
    ensures c <= h
    ensures 2 * (h - c) <= 255 - c <= 2 * (h - c) + 1
  {
    c + Trunc((255 - c) as real / 2.0)
  }

  /** int(min(max(y, 0), 255)): y clamped to the channel range and truncated. */
  function ClampTrunc(y: real): (h: Channel)
    ensures 0.0 <= y ==> h as real <= y
    ensures 0.0 <= y < 255.0 ==> y < h as real + 1.0
    ensures 255.0 <= y ==> h == 255
    ensures y < 0.0 ==> h == 0
  {
    Trunc(Min(Max(y, 0.0), 255.0))
  }

  /** ClampTrunc keeps a channel value on the same side of y. */
  lemma ClampTruncOrder(y: real, c: Channel)
    ensures c as real <= y ==> c <= ClampTrunc(y)
    ensures 0.0 <= y <= c as real ==> ClampTrunc(y) <= c
  {
    var h := ClampTrunc(y);
    if c as real <= y && y < 255.0 {
      assert c as real < h as real + 1.0;
    }
  }

  /** Scaling a channel by 1.5 and clamping never lowers it; scaling it by
      0.5 never raises it. */
  lemma ContrastChannelOrder(c: Channel, n: real)
    requires n == 0.5 || n == 1.5
    ensures 0.0 <= c as real * n
    ensures n == 1.5 ==> c <= ClampTrunc(c as real * n)
    ensures n == 0.5 ==> ClampTrunc(c as real * n) <= c
  {
    if n == 1.5 {
      ClampTruncOrder(c as real * 1.5, c);
    } else {
      ClampTruncOrder(c as real * 0.5, c);
    }
  }

  /** int(min(max(c * n, 0), 255)) (`contrast_dark_light`), for its two
      factors 1.5 and 0.5. */
  function ContrastChannel(c: Channel, n: real): (h: Channel)
    requires n == 0.5 || n == 1.5
    ensures n == 1.5 ==> c <= h
    ensures n == 0.5 ==> h <= c
    ensures h as real <= c as real * n
    ensures c as real * n < 255.0 ==> c as real * n < h as real + 1.0
    ensures 255.0 <= c as real * n ==> h == 255
  {
    ContrastChannelOrder(c, n);
    ClampTrunc(c as real * n)
  }

  /** (c - int(255/3)) % 256 (`contrast_color`): the channel rotated down by 85. */
  function ShiftChannel(c: Channel): (h: Channel)
    ensures (h + 85) % 256 == c
  {
    (c - 255 / 3) % 256
  }

  /** int(c * (255/m)) (`max_bright`), for c no larger than the maximum m. */
  function BrightChannel(c: Channel, m: Channel): (h: Channel)
    requires 0 < m && c <= m
    ensures c == m ==> h == 255
    ensures h as real <= c as real * 255.0 / m as real < h as real + 1.0
  {
    var k := 255.0 / m as real;
    assert m as real * k == 255.0;
    ProductBounds((m - c) as real, k);
    assert m as real * k - c as real * k == (m - c) as real * k;
    assert 0.0 <= c as real * k <= 255.0;
    assert c as real * k == c as real * 255.0 / m as real;
    Trunc(c as real * k)
  }

  /** c + int((t - c)/2) (`step_to`): half the way from c to t, truncated toward c. */
  function StepChannel(c: Channel, t: Channel): (h: Channel)
    ensures c <= t ==> c <= h <= t && 2 * (h - c) <= t - c <= 2 * (h - c) + 1
    ensures t <= c ==> t <= h <= c && 2 * (c - h) <= c - t <= 2 * (c - h) + 1
  {
    c + Trunc((t - c) as real / 2.0)
  }

  // ---------------------------------------------------------------------
  // The colour transforms, as functions of the colour value
  // ---------------------------------------------------------------------

  /** Color.darken(p): for 0 < p <= 1 each of r, g, b becomes int(c * p);
      any other p leaves the colour as it is. Alpha is never touched. */
  function DarkenedBy(v: Rgba, p: real): (w: Rgba)
    ensures w.a == v.a
    ensures !(0.0 < p <= 1.0) ==> w == v
  {
    if 0.0 < p <= 1.0 then Rgba(Scale(v.r, p), Scale(v.g, p), Scale(v.b, p), v.a) else v
  }

  /** Color.lighten(p): for 0 < p <= 1 each of r, g, b is REPLACED by
      int((255 - c) * p), which never exceeds the headroom 255 - c; any other p
      leaves the colour as it is. Alpha is never touched. */
  function LightenedBy(v: Rgba, p: real): (w: Rgba)
    ensures w.a == v.a
    ensures !(0.0 < p <= 1.0) ==> w == v
  {
    if 0.0 < p <= 1.0 then Rgba(Scale(255 - v.r, p), Scale(255 - v.g, p), Scale(255 - v.b, p), v.a) else v
  }

  /** Darkening by 0 < p <= 1 replaces each colour channel by the channel
      times p, rounded down, so no channel grows. */
  lemma DarkenScalesChannels(v: Rgba, p: real)
    requires 0.0 < p <= 1.0
    ensures forall i | 0 <= i < 3 ::
              var w := DarkenedBy(v, p).At(i);
              w <= v.At(i) && w as real <= v.At(i) as real * p < w as real + 1.0
  {
    var w := DarkenedBy(v, p);
    forall i | 0 <= i < 3
      ensures w.At(i) == Scale(v.At(i), p)
    {
      if i == 0 { assert w.At(i) == Scale(v.r, p); }
      else if i == 1 { assert w.At(i) == Scale(v.g, p); }
      else { assert w.At(i) == Scale(v.b, p); }
    }
  }

  /** Lightening by 0 < p <= 1 replaces each colour channel by its headroom
      255 - c times p, rounded down: the result never exceeds the headroom. */
  lemma LightenScalesHeadroom(v: Rgba, p: real)
    requires 0.0 < p <= 1.0
    ensures forall i | 0 <= i < 3 ::
              var w := LightenedBy(v, p).At(i);
              w <= 255 - v.At(i) && w as real <= (255 - v.At(i)) as real * p < w as real + 1.0
  {
    var w := LightenedBy(v, p);
    forall i | 0 <= i < 3
      ensures w.At(i) == Scale(255 - v.At(i), p)
    {
      if i == 0 { assert w.At(i) == Scale(255 - v.r, p); }
      else if i == 1 { assert w.At(i) == Scale(255 - v.g, p); }
      else { assert w.At(i) == Scale(255 - v.b, p); }
    }
  }

  /** The comment on Color.lighten promises r = 155 becomes 205 at p = 0.5;
      the code replaces the channel by int((255 - 155) * 0.5) = 50. */
  lemma LightenReplacesChannel()
    ensures LightenedBy(Rgba(155, 155, 155, 255), 0.5) == Rgba(50, 50, 50, 255)
  {
  }

  /** Color.contrast_lighten_darken(p): darken when the luminance exceeds 0.5,
      lighten otherwise. */
  function ContrastAdjusted(v: Rgba, p: real): (w: Rgba)
    ensures LuminanceOf(v) > 0.5 ==> w == DarkenedBy(v, p)
    ensures LuminanceOf(v) <= 0.5 ==> w == LightenedBy(v, p)
  {
    if LuminanceOf(v) > 0.5 then DarkenedBy(v, p) else LightenedBy(v, p)
  }

  /** `dark`: each RGB channel halved, rounded down; alpha kept. */
  function Halved(v: Rgba): (w: Rgba)
  {
    Rgba(HalfChannel(v.r), HalfChannel(v.g), HalfChannel(v.b), v.a)
  }

  /** `light`: each RGB channel moved half the way up to 255; alpha kept. */
  function TowardWhite(v: Rgba): (w: Rgba)
  {
    Rgba(LightChannel(v.r), LightChannel(v.g), LightChannel(v.b), v.a)
  }

  /** The factor `contrast_dark_light` multiplies by: 1.5 for a colour darker
      than luminance 0.5, else 0.5. */
  function ContrastFactor(v: Rgba): real
  {
    if LuminanceOf(v) < 0.5 then 1.5 else 0.5
  }

  /** `contrast_dark_light`: RGB scaled by ContrastFactor, clamped to 0..255 and truncated. */
  function ContrastScaled(v: Rgba): (w: Rgba)
  {
    var n := ContrastFactor(v);
    Rgba(ContrastChannel(v.r, n), ContrastChannel(v.g, n), ContrastChannel(v.b, n), v.a)
  }

  /** `contrast_color`: each RGB channel rotated down by 85 modulo 256. */
  function ColorShifted(v: Rgba): (w: Rgba)
  {
    Rgba(ShiftChannel(v.r), ShiftChannel(v.g), ShiftChannel(v.b), v.a)
  }

  /** The largest of the three colour channels. */
  function MaxRgb(v: Rgba): (m: Channel)
    ensures v.r <= m && v.g <= m && v.b <= m
    ensures m == v.r || m == v.g || m == v.b
  {
    if v.r < v.g then (if v.g < v.b then v.b else v.g) else (if v.r < v.b then v.b else v.r)
  }

  /** `max_bright`: RGB scaled by 255 over the largest channel, which needs a
      largest channel above 0. */
  function Brightened(v: Rgba): (w: Rgba)
    requires MaxRgb(v) > 0
  {
    var m := MaxRgb(v);
    Rgba(BrightChannel(v.r, m), BrightChannel(v.g, m), BrightChannel(v.b, m), v.a)
  }

  /** Every channel, alpha included, scaled by k and truncated. */
  function Dimmed(v: Rgba, k: real): (w: Rgba)
    requires 0.0 <= k <= 1.0
  {
    Rgba(Scale(v.r, k), Scale(v.g, k), Scale(v.b, k), Scale(v.a, k))
  }

  /** Every channel, alpha included, moved half the way toward `t`. */
  function HalfwayTo(f: Rgba, t: Rgba): (w: Rgba)
  {
    Rgba(StepChannel(f.r, t.r), StepChannel(f.g, t.g), StepChannel(f.b, t.b), StepChannel(f.a, t.a))
  }

  /** The average luminance of two colours, the factor of step_to's luminance mode. */
  function AverageLuminance(f: Rgba, t: Rgba): (k: real)
    ensures 0.0 <= k <= 1.0
    ensures k <= Max(LuminanceOf(f), LuminanceOf(t))
  {
    (LuminanceOf(f) + LuminanceOf(t)) / 2.0
  }

  /** `step_to`: in luminance mode all four channels of `f` scaled by the
      average luminance; otherwise every channel moved half the way to `t`. */
  function Stepped(f: Rgba, t: Rgba, luminanceOnly: bool): (w: Rgba)
  {
    if luminanceOnly then Dimmed(f, AverageLuminance(f, t)) else HalfwayTo(f, t)
  }

  // ---------------------------------------------------------------------
  // What the transforms guarantee
  // ---------------------------------------------------------------------

  /** `dark` halves each colour channel (never raising it) and keeps alpha. */
  lemma DarkHalvesChannels(v: Rgba)
    ensures Halved(v).a == v.a
    ensures forall i | 0 <= i < 3 :: 2 * Halved(v).At(i) <= v.At(i) <= 2 * Halved(v).At(i) + 1
    ensures forall i | 0 <= i < 3 :: Halved(v).At(i) <= 127
  {
    var w := Halved(v);
    forall i | 0 <= i < 3
      ensures 2 * w.At(i) <= v.At(i) <= 2 * w.At(i) + 1
    {
      if i == 0 { assert w.At(i) == HalfChannel(v.r); }
      else if i == 1 { assert w.At(i) == HalfChannel(v.g); }
      else { assert w.At(i) == HalfChannel(v.b); }
    }
  }

  /** `light` moves each colour channel half the way up to 255 and keeps alpha. */
  lemma LightHalvesHeadroom(v: Rgba)
    ensures TowardWhite(v).a == v.a
    ensures forall i | 0 <= i < 3 :: v.At(i) <= TowardWhite(v).At(i)
    ensures forall i | 0 <= i < 3 ::
              var w := TowardWhite(v).At(i);
              w - v.At(i) <= 255 - w <= w - v.At(i) + 1
  {
    var w := TowardWhite(v);
    forall i | 0 <= i < 3
      ensures v.At(i) <= w.At(i)
      ensures w.At(i) - v.At(i) <= 255 - w.At(i) <= w.At(i) - v.At(i) + 1
    {
      if i == 0 { assert w.At(i) == LightChannel(v.r); }
      else if i == 1 { assert w.At(i) == LightChannel(v.g); }
      else { assert w.At(i) == LightChannel(v.b); }
    }
  }

  /** `contrast_dark_light` brightens (up to 255) a colour of luminance below
      0.5 and halves the channels of any other; alpha is kept. */
  lemma ContrastDarkLightDirection(v: Rgba)
    ensures ContrastScaled(v).a == v.a
    ensures LuminanceOf(v) < 0.5 ==> forall i | 0 <= i < 3 :: v.At(i) <= ContrastScaled(v).At(i)
    ensures LuminanceOf(v) < 0.5 ==> forall i | 0 <= i < 3 ::
              2 * v.At(i) < 340 ==> 2 * ContrastScaled(v).At(i) <= 3 * v.At(i) < 2 * ContrastScaled(v).At(i) + 2
    ensures LuminanceOf(v) < 0.5 ==> forall i | 0 <= i < 3 :: 2 * v.At(i) >= 340 ==> ContrastScaled(v).At(i) == 255
    ensures LuminanceOf(v) >= 0.5 ==> forall i | 0 <= i < 3 :: ContrastScaled(v).At(i) == v.At(i) / 2
  {
    var w := ContrastScaled(v);
    var n := ContrastFactor(v);
    forall i | 0 <= i < 3
      ensures w.At(i) == ContrastChannel(v.At(i), n)
    {
      if i == 0 { assert w.At(i) == ContrastChannel(v.r, n); }
      else if i == 1 { assert w.At(i) == ContrastChannel(v.g, n); }
      else { assert w.At(i) == ContrastChannel(v.b, n); }
    }
    forall i | 0 <= i < 3
      ensures LuminanceOf(v) < 0.5 && 2 * v.At(i) < 340 ==> 2 * w.At(i) <= 3 * v.At(i) < 2 * w.At(i) + 2
      ensures LuminanceOf(v) < 0.5 && 2 * v.At(i) >= 340 ==> w.At(i) == 255
      ensures LuminanceOf(v) >= 0.5 ==> w.At(i) == v.At(i) / 2
    {
      var c: int := v.At(i);
      if LuminanceOf(v) < 0.5 && 2 * c < 340 {
        assert c as real * 1.5 < 255.0;
      }
      if LuminanceOf(v) < 0.5 && 2 * c >= 340 {
        assert 255.0 <= c as real * 1.5;
      }
      if LuminanceOf(v) >= 0.5 {
        assert w.At(i) as real <= c as real * 0.5 < w.At(i) as real + 1.0;
      }
    }
  }

  /** `contrast_color` is a rotation of each colour channel: adding 85 back
      modulo 256 recovers the original, so distinct colours stay distinct. */
  lemma ContrastColorInvertible(u: Rgba, v: Rgba)
    ensures forall i | 0 <= i < 3 :: (ColorShifted(v).At(i) + 85) % 256 == v.At(i)
    ensures ColorShifted(v).a == v.a
    ensures ColorShifted(u) == ColorShifted(v) ==> u.(a := v.a) == v
  {
    var w := ColorShifted(v);
    forall i | 0 <= i < 3
      ensures (w.At(i) + 85) % 256 == v.At(i)
    {
      if i == 0 { assert w.At(i) == ShiftChannel(v.r); }
      else if i == 1 { assert w.At(i) == ShiftChannel(v.g); }
      else { assert w.At(i) == ShiftChannel(v.b); }
    }
  }

  /** `max_bright` takes the largest colour channel to exactly 255, keeps every
      channel within range and keeps alpha. */
  lemma MaxBrightReachesFull(v: Rgba)
    requires MaxRgb(v) > 0
    ensures MaxRgb(Brightened(v)) == 255
    ensures Brightened(v).a == v.a
    ensures forall i | 0 <= i < 3 :: v.At(i) == MaxRgb(v) ==> Brightened(v).At(i) == 255
  {
    var w := Brightened(v);
    var m := MaxRgb(v);
    forall i | 0 <= i < 3
      ensures v.At(i) == m ==> w.At(i) == 255
    {
      if i == 0 { assert w.At(i) == BrightChannel(v.r, m); }
      else if i == 1 { assert w.At(i) == BrightChannel(v.g, m); }
      else { assert w.At(i) == BrightChannel(v.b, m); }
    }
    if m == v.r { assert w.At(0) == 255; }
    else if m == v.g { assert w.At(1) == 255; }
    else { assert w.At(2) == 255; }
  }

  /** `step_to` without luminance: every channel, alpha included, ends between
      its value in `f` and its value in `t`, half the way there, rounded toward `f`. */
  lemma StepToBetween(f: Rgba, t: Rgba)
    ensures forall i | 0 <= i < 4 ::
              var h := Stepped(f, t, false).At(i);
              (f.At(i) <= t.At(i) ==> f.At(i) <= h <= t.At(i) && 2 * (h - f.At(i)) <= t.At(i) - f.At(i) <= 2 * (h - f.At(i)) + 1) &&
              (t.At(i) <= f.At(i) ==> t.At(i) <= h <= f.At(i) && 2 * (f.At(i) - h) <= f.At(i) - t.At(i) <= 2 * (f.At(i) - h) + 1)
  {
    var w := Stepped(f, t, false);
    forall i | 0 <= i < 4
      ensures w.At(i) == StepChannel(f.At(i), t.At(i))
    {
      if i == 0 { assert w.At(i) == StepChannel(f.r, t.r); }
      else if i == 1 { assert w.At(i) == StepChannel(f.g, t.g); }
      else if i == 2 { assert w.At(i) == StepChannel(f.b, t.b); }
      else { assert w.At(i) == StepChannel(f.a, t.a); }
    }
  }

  /** step_to((0,0,0,255), (255,255,255,255)) is (127,127,127,255). */
  lemma StepToBlackToWhite()
    ensures Stepped(Rgba(0, 0, 0, 255), Rgba(255, 255, 255, 255), false) == Rgba(127, 127, 127, 255)
  {
    assert StepChannel(0, 255) == 127;
  }

  /** `step_to` in luminance mode never raises a channel, alpha included; two
      white colours leave `f` unchanged. */
  lemma StepToLuminanceDims(f: Rgba, t: Rgba)
    ensures forall i | 0 <= i < 4 :: Stepped(f, t, true).At(i) <= f.At(i)
    ensures LuminanceOf(f) == 1.0 && LuminanceOf(t) == 1.0 ==> Stepped(f, t, true) == f
  {
    var w := Stepped(f, t, true);
    var k := AverageLuminance(f, t);
    forall i | 0 <= i < 4
      ensures w.At(i) == Scale(f.At(i), k)
    {
      if i == 0 { assert w.At(i) == Scale(f.r, k); }
      else if i == 1 { assert w.At(i) == Scale(f.g, k); }
      else if i == 2 { assert w.At(i) == Scale(f.b, k); }
      else { assert w.At(i) == Scale(f.a, k); }
    }
    if LuminanceOf(f) == 1.0 && LuminanceOf(t) == 1.0 {
      forall i | 0 <= i < 4
        ensures w.At(i) == f.At(i)
      {
        assert k == 1.0;
        assert w.At(i) as real <= f.At(i) as real < w.At(i) as real + 1.0;
      }
      ChannelsDetermine(w, f);
    }
  }

  // ---------------------------------------------------------------------
  // The in-place colour object
  // ---------------------------------------------------------------------

  /** pygame's Color as the kit subclasses it: four channels updated in place. */
  class Color {
    var r: Channel
    var g: Channel
    var b: Channel
    var a: Channel

    /** The colour this object currently holds. */
    function Value(): Rgba
      reads this
    {
      Rgba(r, g, b, a)
    }

    constructor (v: Rgba)
      ensures Value() == v
    {
      r, g, b, a := v.r, v.g, v.b, v.a;
    }

    /** Color.luminance: a number in 0..1, 0 only for black and 1 only for white. */
    function Luminance(): (l: real)
      reads this
      ensures 0.0 <= l <= 1.0
      ensures l == 0.0 <==> r == 0 && g == 0 && b == 0
      ensures l == 1.0 <==> r == 255 && g == 255 && b == 255
    {
      LuminanceOf(Value())
    }

    /** Color.lighten: replaces r, g and b in place when 0 < p <= 1. */
    method Lighten(p: real := 0.5)
      modifies this
      ensures Value() == LightenedBy(old(Value()), p)
    {
      if 0.0 < p <= 1.0 {
        r := Scale(255 - r, p);
        g := Scale(255 - g, p);
        b := Scale(255 - b, p);
      }
    }

    /** Color.darken: scales r, g and b in place when 0 < p <= 1. */
    method Darken(p: real := 0.5)
      modifies this
      ensures Value() == DarkenedBy(old(Value()), p)
    {
      if 0.0 < p <= 1.0 {
        r := Scale(r, p);
        g := Scale(g, p);
        b := Scale(b, p);
      }
    }

    /** Color.contrast_lighten_darken: darkens a bright colour, lightens any other. */
    method ContrastLightenDarken(p: real := 0.5)
      modifies this
      ensures Value() == ContrastAdjusted(old(Value()), p)
    {
      var lumin := Luminance();
      if lumin > 0.5 {
        Darken(p);
      } else {
        Lighten(p);
      }
    }
  }

  // ---------------------------------------------------------------------
  // The module-level colour effects
  // ---------------------------------------------------------------------

  /** `lighten(color, p=0.5)`: False exactly for a colour validate_color
      rejects, otherwise the lightened copy (unchanged when p is out of range). */
  function Lighten(color: ColorArg, p: real := 0.5): (res: Option<Rgba>)
    ensures res.None? <==> ValidateColor(color).None?
    ensures res.Some? ==> res.value == LightenedBy(ValidateColor(color).value, p)
    ensures MakeColor(color).Ok? ==> res == Some(LightenedBy(MakeColor(color).value, p))
  {
    match ValidateColor(color)
    case None => None
    case Some(c) => Some(LightenedBy(c, p))
  }

  /** `darken(color, p=0.5)`: False exactly for a colour validate_color
      rejects, otherwise the darkened copy, no channel of which exceeds the
      original. */
  function Darken(color: ColorArg, p: real := 0.5): (res: Option<Rgba>)
    ensures res.None? <==> ValidateColor(color).None?
    ensures res.Some? ==> res.value == DarkenedBy(ValidateColor(color).value, p)
    ensures res.Some? ==> forall i | 0 <= i < 4 :: res.value.At(i) <= ValidateColor(color).value.At(i)
    ensures MakeColor(color).Ok? ==> res == Some(DarkenedBy(MakeColor(color).value, p))
  {
    match ValidateColor(color)
    case None => None
    case Some(c) =>
      var w := DarkenedBy(c, p);
      assert forall i | 0 <= i < 4 :: w.At(i) <= c.At(i) by {
        forall i | 0 <= i < 4 ensures w.At(i) <= c.At(i) {
          if i == 3 { assert w.At(i) == c.At(i); }
        }
      }
      Some(w)
  }

  /** `contrast_lighten_darken(color, p=0.5)`: False exactly for a colour
      validate_color rejects; otherwise darkened when its luminance exceeds
      0.5, lightened if not. */
  function ContrastLightenDarken(color: ColorArg, p: real := 0.5): (res: Option<Rgba>)
    ensures res.None? <==> ValidateColor(color).None?
    ensures res.Some? && LuminanceOf(ValidateColor(color).value) > 0.5 ==> res.value == DarkenedBy(ValidateColor(color).value, p)
    ensures res.Some? && LuminanceOf(ValidateColor(color).value) <= 0.5 ==> res.value == LightenedBy(ValidateColor(color).value, p)
    ensures MakeColor(color).Ok? ==> res == Some(ContrastAdjusted(MakeColor(color).value, p))
  {
    match ValidateColor(color)
    case None => None
    case Some(c) => Some(ContrastAdjusted(c, p))
  }

  /** `alpha(color, a)`: the colour with its alpha set to int(a); pygame
      rejects an alpha outside 0..255 with ValueError. */
  function WithAlpha(color: ColorArg, alpha: real): (res: Result<Rgba>)
    ensures MakeColor(color).Err? ==> res == Err(MakeColor(color).error)
    ensures MakeColor(color).Ok? ==> (res.Ok? <==> 0 <= Trunc(alpha) <= 255)
    ensures MakeColor(color).Ok? && res.Err? ==> res.error == ValueError
    ensures res.Ok? ==> res.value.a == Trunc(alpha) && forall i | 0 <= i < 3 :: res.value.At(i) == MakeColor(color).value.At(i)
  {
    match MakeColor(color)
    case Err(e) => Err(e)
    case Ok(c) =>
      var a := Trunc(alpha);
      if 0 <= a <= 255 then Ok(c.(a := a)) else Err(ValueError)
  }

  /** `dark(color)`: a copy with each colour channel halved. */
  method Dark(color: ColorArg) returns (res: Result<Rgba>)
    ensures MakeColor(color).Err? ==> res == Err(MakeColor(color).error)
    ensures MakeColor(color).Ok? ==> res == Ok(Halved(MakeColor(color).value))
  {
    var made := MakeColor(color);
    if made.Err? {
      return Err(made.error);
    }
    var v := made.value;
    var c := v;
    for i := 0 to 3
      invariant forall j | 0 <= j < i :: c.At(j) == HalfChannel(v.At(j))
      invariant forall j | i <= j < 4 :: c.At(j) == v.At(j)
    {
      c := c.With(i, HalfChannel(c.At(i)));
    }
    ChannelsDetermine(c, Halved(v));
    return Ok(c);
  }

  /** `light(color)`: a copy with each colour channel moved half the way to 255. */
  method Light(color: ColorArg) returns (res: Result<Rgba>)
    ensures MakeColor(color).Err? ==> res == Err(MakeColor(color).error)
    ensures MakeColor(color).Ok? ==> res == Ok(TowardWhite(MakeColor(color).value))
  {
    var made := MakeColor(color);
    if made.Err? {
      return Err(made.error);
    }
    var v := made.value;
    var c := v;
    for i := 0 to 3
      invariant forall j | 0 <= j < i :: c.At(j) == LightChannel(v.At(j))
      invariant forall j | i <= j < 4 :: c.At(j) == v.At(j)
    {
      c := c.With(i, LightChannel(c.At(i)));
    }
    ChannelsDetermine(c, TowardWhite(v));
    return Ok(c);
  }

  /** `contrast_dark_light(color)`: a copy whose colour channels are scaled by
      1.5 (dark colours) or 0.5 (bright ones) and clamped. */
  method ContrastDarkLight(color: ColorArg) returns (res: Result<Rgba>)
    ensures MakeColor(color).Err? ==> res == Err(MakeColor(color).error)
    ensures MakeColor(color).Ok? ==> res == Ok(ContrastScaled(MakeColor(color).value))
  {
    var made := MakeColor(color);
    if made.Err? {
      return Err(made.error);
    }
    var v := made.value;
    var c := v;
    var n := if LuminanceOf(c) < 0.5 then 1.5 else 0.5;
    for i := 0 to 3
      invariant forall j | 0 <= j < i :: c.At(j) == ContrastChannel(v.At(j), n)
      invariant forall j | i <= j < 4 :: c.At(j) == v.At(j)
    {
      c := c.With(i, ContrastChannel(c.At(i), n));
    }
    ChannelsDetermine(c, ContrastScaled(v));
    return Ok(c);
  }

  /** `contrast_color(color)`: a copy whose colour channels are rotated by -85. */
  method ContrastColor(color: ColorArg) returns (res: Result<Rgba>)
    ensures MakeColor(color).Err? ==> res == Err(MakeColor(color).error)
    ensures MakeColor(color).Ok? ==> res == Ok(ColorShifted(MakeColor(color).value))
  {
    var made := MakeColor(color);
    if made.Err? {
      return Err(made.error);
    }
    var v := made.value;
    var c := v;
    for i := 0 to 3
      invariant forall j | 0 <= j < i :: c.At(j) == ShiftChannel(v.At(j))
      invariant forall j | i <= j < 4 :: c.At(j) == v.At(j)
    {
      c := c.With(i, ShiftChannel(c.At(i)));
    }
    ChannelsDetermine(c, ColorShifted(v));
    return Ok(c);
  }

  /** `max_bright(color)`: finds the largest colour channel with a running
      maximum, then scales the colour channels so that it becomes 255; a black
      colour divides by zero. */
  method MaxBright(color: ColorArg) returns (res: Result<Rgba>)
    ensures MakeColor(color).Err? ==> res == Err(MakeColor(color).error)
    ensures MakeColor(color).Ok? && MaxRgb(MakeColor(color).value) == 0 ==> res == Err(ZeroDivisionError)
    ensures MakeColor(color).Ok? && MaxRgb(MakeColor(color).value) > 0 ==> res == Ok(Brightened(MakeColor(color).value))
  {
    var made := MakeColor(color);
    if made.Err? {
      return Err(made.error);
    }
    var v := made.value;
    var c := v;
    var maxC := c.At(0);
    for i := 1 to 3
      invariant forall j | 0 <= j < i :: c.At(j) <= maxC
      invariant exists j | 0 <= j < i :: c.At(j) == maxC
    {
      if c.At(i) > maxC {
        maxC := c.At(i);
      }
    }
    assert maxC == MaxRgb(v) by {
      assert c.At(0) == v.r && c.At(1) == v.g && c.At(2) == v.b;
    }
    if maxC == 0 {
      return Err(ZeroDivisionError);
    }
    for i := 0 to 3
      invariant forall j | 0 <= j < i :: c.At(j) == BrightChannel(v.At(j), maxC)
      invariant forall j | i <= j < 4 :: c.At(j) == v.At(j)
    {
      c := c.With(i, BrightChannel(c.At(i), maxC));
    }
    ChannelsDetermine(c, Brightened(v));
    return Ok(c);
  }

  /** `step_to(from, to, luminance_only)`: both arguments go through
      make_color (from first), then the copy of `from` is stepped channel by
      channel, alpha included. */
  method StepTo(fromColor: ColorArg, toColor: ColorArg, luminanceOnly: bool := false) returns (res: Result<Rgba>)
    ensures MakeColor(fromColor).Err? ==> res == Err(MakeColor(fromColor).error)
    ensures MakeColor(fromColor).Ok? && MakeColor(toColor).Err? ==> res == Err(MakeColor(toColor).error)
    ensures MakeColor(fromColor).Ok? && MakeColor(toColor).Ok? ==>
              res == Ok(Stepped(MakeColor(fromColor).value, MakeColor(toColor).value, luminanceOnly))
  {
    var madeFrom := MakeColor(fromColor);
    if madeFrom.Err? {
      return Err(madeFrom.error);
    }
    var madeTo := MakeColor(toColor);
    if madeTo.Err? {
      return Err(madeTo.error);
    }
    var f, tc := madeFrom.value, madeTo.value;
    var fc := f;
    if luminanceOnly {
      var avg := AverageLuminance(fc, tc);
      for i := 0 to 4
        invariant forall j | 0 <= j < i :: fc.At(j) == Scale(f.At(j), avg)
        invariant forall j | i <= j < 4 :: fc.At(j) == f.At(j)
      {
        fc := fc.With(i, Scale(fc.At(i), avg));
      }
      ChannelsDetermine(fc, Dimmed(f, avg));
    } else {
      for i := 0 to 4
        invariant forall j | 0 <= j < i :: fc.At(j) == StepChannel(f.At(j), tc.At(j))
        invariant forall j | i <= j < 4 :: fc.At(j) == f.At(j)
      {
        fc := fc.With(i, StepChannel(fc.At(i), tc.At(i)));
      }
      ChannelsDetermine(fc, HalfwayTo(f, tc));
    }
    return Ok(fc);
  }
}
