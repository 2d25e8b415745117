/**
 * The push button of the HUD kit (class Button in hud_components.py): a
 * box at `pos` of `width` x `height` that tracks whether the pointer hovers
 * over it and whether it has been pressed, fires its hover and click
 * callbacks, picks its drawing colours from that state, and rescales its
 * text so that the text fills a set share of the box.
 */
module Buttons {
  import opened Outcomes
  import opened Numeric
  import opened Vectors
  import opened Colors

  // ---------------------------------------------------------------------
  // Text rescaling
  // ---------------------------------------------------------------------

  /** txt_size_ratio: the share of the box the text's larger side should fill. */
  const TxtSizeRatio: real := 0.6

  /** What a resize_txt call does to the text size: leave it, multiply it by
      `factor`, or raise ZeroDivisionError. */
  datatype Resize = Unchanged | ScaledBy(factor: real) | DividesByZero

  /** The share of a box side a text side of length `textLen` fills. */
  function Ratio(textLen: int, boxLen: int): real
    requires boxLen != 0
  {
    textLen as real / boxLen as real
  }

  /** Button.resize_txt's decision for the fill ratios `w` and `h`: the text is
      left alone when the larger ratio is within [r/2, r], and otherwise
      scaled so that the larger ratio becomes r; a larger ratio of 0 makes
      the division raise. */
  function ButtonResizeFor(w: real, h: real): (res: Resize)
    ensures res.Unchanged? <==> TxtSizeRatio / 2.0 <= Max(w, h) <= TxtSizeRatio
    ensures res.DividesByZero? <==> Max(w, h) == 0.0
    ensures res.ScaledBy? ==> res.factor * Max(w, h) == TxtSizeRatio
  {
    var m := Max(w, h);
    if m > TxtSizeRatio || m < TxtSizeRatio / 2.0 then
      if m == 0.0 then DividesByZero else ScaledBy(TxtSizeRatio / m)
    else Unchanged
  }

  /** Scaling both ratios by a positive factor scales their maximum. */
  lemma MaxScales(w: real, h: real, k: real)
    requires k > 0.0
    ensures Max(w * k, h * k) == Max(w, h) * k
  {
    if w <= h {
      assert w * k <= h * k;
    } else {
      assert h * k < w * k;
    }
  }

  /** If the text's size grows in proportion to the text size, one rescale
      is enough: after it the larger ratio is exactly r and the next call
      leaves the text alone. */
  lemma ButtonResizeSettles(w: real, h: real)
    requires Max(w, h) > 0.0
    requires ButtonResizeFor(w, h).ScaledBy?
    ensures var k := ButtonResizeFor(w, h).factor;
            k > 0.0 && Max(w * k, h * k) == TxtSizeRatio && ButtonResizeFor(w * k, h * k) == Unchanged
  {
    var k := ButtonResizeFor(w, h).factor;
    assert k == TxtSizeRatio / Max(w, h);
    MaxScales(w, h, k);
  }

  // ---------------------------------------------------------------------
  // Drawing colours
  // ---------------------------------------------------------------------

  /** The three colours a button is drawn with. */
  datatype Palette = Palette(fill: Rgba, outline: Rgba, text: Rgba)

  /** The colours Button.draw uses: each contrast-adjusted while hovering;
      when pressed, the fill is then darkened and the outline and text are
      stepped toward the darkened fill in luminance mode. */
  function StateColors(base: Palette, hovering: bool, pressed: bool): (p: Palette)
    ensures !hovering && !pressed ==> p == base
    ensures hovering && !pressed ==> p == Palette(ContrastScaled(base.fill), ContrastScaled(base.outline), ContrastScaled(base.text))
    ensures p.fill.a == base.fill.a
  {
    var shown := if hovering then Palette(ContrastScaled(base.fill), ContrastScaled(base.outline), ContrastScaled(base.text))
                 else base;
    if pressed then
      var fill := Halved(shown.fill);
      Palette(fill, Stepped(shown.outline, fill, true), Stepped(shown.text, fill, true))
    else shown
  }

  /** Pressing a button never brightens it: the fill's colour channels are
      halved and no channel of the outline or the text goes up, compared
      with the same button unpressed. */
  lemma PressedNeverBrightens(base: Palette, hovering: bool)
    ensures var up, down := StateColors(base, hovering, false), StateColors(base, hovering, true);
            (forall i | 0 <= i < 3 :: 2 * down.fill.At(i) <= up.fill.At(i) <= 2 * down.fill.At(i) + 1) &&
            (forall i | 0 <= i < 4 :: down.outline.At(i) <= up.outline.At(i) && down.text.At(i) <= up.text.At(i))
  {
    var up := StateColors(base, hovering, false);
    DarkHalvesChannels(up.fill);
    StepToLuminanceDims(up.outline, Halved(up.fill));
    StepToLuminanceDims(up.text, Halved(up.fill));
  }

  // ---------------------------------------------------------------------
  // The button object
  // ---------------------------------------------------------------------

  /** The callbacks a button fires, in the order it fires them. */
  datatype Callback = Hover | Click

  /** Every click in the log comes right after a hover. */
  ghost predicate ClicksFollowHovers(events: seq<Callback>)
  {
    forall i | 0 <= i < |events| && events[i] == Click :: 0 < i && events[i - 1] == Hover
  }

  class Button {
    var pos: Vec
    var width: int
    var height: int
    var txtSize: real
    var hovering: bool
    var pressed: bool
    /** The callbacks fired so far. */
    ghost var events: seq<Callback>

    /** A pressed button is hovered, and every click fired came right after a
        hover fired by the same update. */
    ghost predicate Valid()
      reads this
    {
      (pressed ==> hovering) && ClicksFollowHovers(events)
    }

    /** Button(...): the text size starts at half the height; neither hovered
        nor pressed. */
    constructor (pos: Vec, width: int, height: int)
      ensures Valid()
      ensures this.pos == pos && this.width == width && this.height == height
      ensures txtSize == height as real / 2.0
      ensures !hovering && !pressed && events == []
    {
      this.pos := pos;
      this.width := width;
      this.height := height;
      txtSize := height as real / 2.0;
      hovering := false;
      pressed := false;
      events := [];
    }

    /** is_within_rect: `p` is strictly inside the box, so a point of its
        border does not count. */
    function IsWithinRect(p: Vec): (r: bool)
      reads this
      ensures r <==> InClosedBox(pos, width as real, height as real, p) && !OnEdge(pos, width as real, height as real, p)
    {
      p.x > pos.x && p.x < pos.x + width as real && p.y > pos.y && p.y < pos.y + height as real
    }

    /** update(dt) with the pointer position and the primary mouse button
        given: inside the box the button is hovered and fires on_hover, and a
        primary button that is down presses it, firing on_click only when it
        was not pressed yet; outside, it is neither hovered nor pressed. */
    method Update(pointer: Vec, primaryDown: bool)
      requires Valid()
      modifies this
      ensures Valid()
      ensures old(IsWithinRect(pointer)) ==>
                hovering && pressed == (old(pressed) || primaryDown) &&
                events == old(events) + [Hover] + (if primaryDown && !old(pressed) then [Click] else [])
      ensures !old(IsWithinRect(pointer)) ==> !hovering && !pressed && events == old(events)
      ensures pos == old(pos) && width == old(width) && height == old(height) && txtSize == old(txtSize)
    {
      if IsWithinRect(pointer) {
        hovering := true;
        events := events + [Hover];
        if primaryDown {
          if !pressed {
            pressed := true;
            events := events + [Click];
          }
        }
      } else {
        hovering := false;
        pressed := false;
      }
    }

    /** resize_txt(width, height) for a rendered text of that size: raises
        ZeroDivisionError for a zero box side or a zero larger ratio,
        otherwise applies ButtonResizeFor and returns the text size. */
    method ResizeTxt(textW: nat, textH: nat) returns (res: Result<real>)
      modifies this
      ensures width == 0 || height == 0 ==> res == Err(ZeroDivisionError) && txtSize == old(txtSize)
      ensures width != 0 && height != 0 ==>
                match ButtonResizeFor(Ratio(textW, width), Ratio(textH, height))
                case Unchanged => res == Ok(txtSize) && txtSize == old(txtSize)
                case ScaledBy(k) => res == Ok(txtSize) && txtSize == old(txtSize) * k
                case DividesByZero => res == Err(ZeroDivisionError) && txtSize == old(txtSize)
      ensures pos == old(pos) && width == old(width) && height == old(height)
      ensures hovering == old(hovering) && pressed == old(pressed) && events == old(events)
    {
      if width == 0 || height == 0 {
        return Err(ZeroDivisionError);
      }
      var w := textW as real / width as real;
      var h := textH as real / height as real;
      var m := Max(w, h);
      if m > TxtSizeRatio || m < TxtSizeRatio / 2.0 {
        if m == 0.0 {
          return Err(ZeroDivisionError);
        }
        txtSize := txtSize * (TxtSizeRatio / m);
      }
      return Ok(txtSize);
    }
  }
}
